/** lodash `groupBy` over a sequence: the elements grouped by a key, the
    groups in the order their keys first appear, each group's elements in
    input order. */
module Grouping {

  /** The elements of `bs` whose key is `k`, in input order. */
  function OfKey<T, K(==)>(bs: seq<T>, k: K, key: T -> K): (r: seq<T>)
    ensures forall b <- r :: key(b) == k
  {
    if bs == [] then []
    else
      var b := bs[|bs| - 1];
      OfKey(bs[..|bs| - 1], k, key) + (if key(b) == k then [b] else [])
  }

  lemma {:induction false} OfKeyEmpty<T, K>(bs: seq<T>, k: K, key: T -> K)
    ensures OfKey(bs, k, key) == [] <==> forall q :: 0 <= q < |bs| ==> key(bs[q]) != k
  {
    if bs != [] {
      OfKeyEmpty(bs[..|bs| - 1], k, key);
    }
  }

  /** The first element with key `k` heads the elements with that key. */
  lemma {:induction false} OfKeyFirst<T, K>(bs: seq<T>, k: K, key: T -> K, p: nat)
    requires p < |bs| && key(bs[p]) == k
    requires forall q :: 0 <= q < p ==> key(bs[q]) != k
    ensures OfKey(bs, k, key) != [] && OfKey(bs, k, key)[0] == bs[p]
  {
    var init := bs[..|bs| - 1];
    if p < |bs| - 1 {
      OfKeyFirst(init, k, key, p);
    } else {
      OfKeyEmpty(init, k, key);
    }
  }

  /** One group of `groupBy`: its key and its elements in input order. */
  datatype Group<K, T> = Group(key: K, members: seq<T>)

  /** Files `b` under key `k`: appended to the group of that key, or a new
      group at the end when there is none yet. */
  function AddToGroups<T, K(==)>(gs: seq<Group<K, T>>, b: T, k: K): seq<Group<K, T>> {
    if gs == [] then [Group(k, [b])]
    else if gs[0].key == k then [gs[0].(members := gs[0].members + [b])] + gs[1..]
    else [gs[0]] + AddToGroups(gs[1..], b, k)
  }

  /** lodash `groupBy`: groups in key insertion order. */
  function GroupBy<T, K(==)>(bs: seq<T>, key: T -> K): seq<Group<K, T>> {
    if bs == [] then []
    else
      var b := bs[|bs| - 1];
      AddToGroups(GroupBy(bs[..|bs| - 1], key), b, key(b))
  }

  function TotalMembers<K, T>(gs: seq<Group<K, T>>): nat {
    if gs == [] then 0 else |gs[0].members| + TotalMembers(gs[1..])
  }

  lemma {:induction false} AddToGroupsExisting<T, K>(gs: seq<Group<K, T>>, b: T, k: K, i: nat)
    requires i < |gs| && gs[i].key == k
    requires forall j :: 0 <= j < |gs| && j != i ==> gs[j].key != k
    ensures |AddToGroups(gs, b, k)| == |gs|
    ensures AddToGroups(gs, b, k)[i] == gs[i].(members := gs[i].members + [b])
    ensures forall j :: 0 <= j < |gs| && j != i ==> AddToGroups(gs, b, k)[j] == gs[j]
    ensures TotalMembers(AddToGroups(gs, b, k)) == TotalMembers(gs) + 1
  {
    if gs[0].key != k {
      AddToGroupsExisting(gs[1..], b, k, i - 1);
    } else {
      assert ([gs[0].(members := gs[0].members + [b])] + gs[1..])[1..] == gs[1..];
    }
  }

  lemma {:induction false} AddToGroupsNew<T, K>(gs: seq<Group<K, T>>, b: T, k: K)
    requires forall j :: 0 <= j < |gs| ==> gs[j].key != k
    ensures AddToGroups(gs, b, k) == gs + [Group(k, [b])]
    ensures TotalMembers(gs + [Group(k, [b])]) == TotalMembers(gs) + 1
  {
    if gs != [] {
      AddToGroupsNew(gs[1..], b, k);
      assert (gs + [Group(k, [b])])[1..] == gs[1..] + [Group(k, [b])];
    }
  }

  /** The index of the first element with key `k`; `|bs|` when there is none. */
  function FirstAt<T, K(==)>(bs: seq<T>, k: K, key: T -> K): (r: nat)
    ensures r <= |bs|
    ensures r < |bs| ==> key(bs[r]) == k
    ensures forall q :: 0 <= q < r ==> key(bs[q]) != k
  {
    if bs == [] then 0
    else
      var n := |bs|;
      var f := FirstAt(bs[..n - 1], k, key);
      assert forall q :: 0 <= q < n - 1 ==> bs[..n - 1][q] == bs[q];
      if f < n - 1 then f else if key(bs[n - 1]) == k then n - 1 else n
  }

  /** No two groups share a key. */
  ghost predicate DistinctKeys<K, T>(gs: seq<Group<K, T>>) {
    forall i, j :: 0 <= i < j < |gs| ==> gs[i].key != gs[j].key
  }

  /** Each group's key occurs in the input, and the group holds exactly the
      elements with that key, in input order. */
  ghost predicate GroupsMatch<T, K>(bs: seq<T>, gs: seq<Group<K, T>>, key: T -> K) {
    forall i :: 0 <= i < |gs| ==> FirstAt(bs, gs[i].key, key) < |bs| && gs[i].members == OfKey(bs, gs[i].key, key)
  }

  /** Every element's key has a group. */
  ghost predicate Covers<T, K>(bs: seq<T>, gs: seq<Group<K, T>>, key: T -> K) {
    forall q :: 0 <= q < |bs| ==> exists i :: 0 <= i < |gs| && gs[i].key == key(bs[q])
  }

  /** The groups come in the order their keys first appear. */
  ghost predicate FirstAppearanceOrder<T, K>(bs: seq<T>, gs: seq<Group<K, T>>, key: T -> K) {
    forall i, j :: 0 <= i < j < |gs| ==> FirstAt(bs, gs[i].key, key) < FirstAt(bs, gs[j].key, key)
  }

  /** What it means for `gs` to be the grouping of `bs`. */
  ghost predicate Grouping<T, K>(bs: seq<T>, gs: seq<Group<K, T>>, key: T -> K) {
    DistinctKeys(gs) && GroupsMatch(bs, gs, key) && Covers(bs, gs, key) && FirstAppearanceOrder(bs, gs, key)
  }

  /** A key that already occurs keeps its first index when an element is appended. */
  lemma FirstAtSnocOld<T, K>(bs: seq<T>, key: T -> K, k: K)
    requires bs != [] && FirstAt(bs[..|bs| - 1], k, key) < |bs| - 1
    ensures FirstAt(bs, k, key) == FirstAt(bs[..|bs| - 1], k, key)
  {
  }

  lemma OfKeySnoc<T, K>(bs: seq<T>, key: T -> K, k: K)
    requires bs != []
    ensures OfKey(bs, k, key) == OfKey(bs[..|bs| - 1], k, key) + (if key(bs[|bs| - 1]) == k then [bs[|bs| - 1]] else [])
  {
  }

  /** Appending an element whose key already has a group keeps the groups'
      keys and first indices; only that group's members grow. */
  lemma ExistingMatch<T, K>(bs: seq<T>, key: T -> K, gs: seq<Group<K, T>>, r: seq<Group<K, T>>, i: nat)
    requires bs != [] && GroupsMatch(bs[..|bs| - 1], gs, key) && FirstAppearanceOrder(bs[..|bs| - 1], gs, key)
    requires i < |gs| && gs[i].key == key(bs[|bs| - 1])
    requires |r| == |gs| && r[i] == gs[i].(members := gs[i].members + [bs[|bs| - 1]])
    requires forall j :: 0 <= j < |gs| && j != i ==> r[j] == gs[j]
    ensures GroupsMatch(bs, r, key) && FirstAppearanceOrder(bs, r, key)
  {
    forall j | 0 <= j < |r|
      ensures r[j].key == gs[j].key
      ensures FirstAt(bs, r[j].key, key) == FirstAt(bs[..|bs| - 1], gs[j].key, key)
      ensures r[j].members == OfKey(bs, r[j].key, key)
    {
      FirstAtSnocOld(bs, key, gs[j].key);
      OfKeySnoc(bs, key, gs[j].key);
    }
  }

  lemma ExistingCovers<T, K>(bs: seq<T>, key: T -> K, gs: seq<Group<K, T>>, r: seq<Group<K, T>>, i: nat)
    requires bs != [] && Covers(bs[..|bs| - 1], gs, key)
    requires |r| == |gs| && forall j :: 0 <= j < |r| ==> r[j].key == gs[j].key
    requires i < |gs| && gs[i].key == key(bs[|bs| - 1])
    ensures Covers(bs, r, key)
  {
    var init := bs[..|bs| - 1];
    forall q | 0 <= q < |bs| ensures exists j :: 0 <= j < |r| && r[j].key == key(bs[q]) {
      if q < |bs| - 1 {
        assert bs[q] == init[q];
        var j :| 0 <= j < |gs| && gs[j].key == key(init[q]);
        assert r[j].key == key(bs[q]);
      } else {
        assert r[i].key == key(bs[q]);
      }
    }
  }

  /** The last element's key already has group `i`: the group grows by one. */
  lemma GroupingStepExisting<T, K>(bs: seq<T>, key: T -> K, gs: seq<Group<K, T>>, i: nat)
    requires bs != [] && Grouping(bs[..|bs| - 1], gs, key)
    requires i < |gs| && gs[i].key == key(bs[|bs| - 1])
    ensures Grouping(bs, AddToGroups(gs, bs[|bs| - 1], key(bs[|bs| - 1])), key)
    ensures TotalMembers(AddToGroups(gs, bs[|bs| - 1], key(bs[|bs| - 1]))) == TotalMembers(gs) + 1
  {
    var b := bs[|bs| - 1];
    AddToGroupsExisting(gs, b, key(b), i);
    var r := AddToGroups(gs, b, key(b));
    assert forall j :: 0 <= j < |r| ==> r[j].key == gs[j].key;
    ExistingMatch(bs, key, gs, r, i);
    ExistingCovers(bs, key, gs, r, i);
  }

  /** A key no group has does not occur in a covered input. */
  lemma NewKeyAbsent<T, K>(bs: seq<T>, key: T -> K, gs: seq<Group<K, T>>, k: K)
    requires Covers(bs, gs, key)
    requires forall j :: 0 <= j < |gs| ==> gs[j].key != k
    ensures FirstAt(bs, k, key) == |bs| && OfKey(bs, k, key) == []
  {
    OfKeyEmpty(bs, k, key);
  }

  /** Appending an element with a new key keeps the old groups' first
      indices and members, and the new key first appears at the end. */
  lemma NewKeyFacts<T, K>(bs: seq<T>, key: T -> K, gs: seq<Group<K, T>>)
    requires bs != [] && GroupsMatch(bs[..|bs| - 1], gs, key) && Covers(bs[..|bs| - 1], gs, key)
    requires forall j :: 0 <= j < |gs| ==> gs[j].key != key(bs[|bs| - 1])
    ensures FirstAt(bs, key(bs[|bs| - 1]), key) == |bs| - 1 && OfKey(bs, key(bs[|bs| - 1]), key) == [bs[|bs| - 1]]
    ensures forall j :: 0 <= j < |gs| ==> FirstAt(bs, gs[j].key, key) == FirstAt(bs[..|bs| - 1], gs[j].key, key) < |bs| - 1
    ensures forall j :: 0 <= j < |gs| ==> gs[j].members == OfKey(bs, gs[j].key, key)
  {
    var init := bs[..|bs| - 1];
    NewKeyAbsent(init, key, gs, key(bs[|bs| - 1]));
    forall j | 0 <= j < |gs|
      ensures FirstAt(bs, gs[j].key, key) == FirstAt(init, gs[j].key, key)
      ensures gs[j].members == OfKey(bs, gs[j].key, key)
    {
      FirstAtSnocOld(bs, key, gs[j].key);
      OfKeySnoc(bs, key, gs[j].key);
    }
  }

  /** Appending an element with a new key opens a group at the end. */
  lemma NewMatch<T, K>(bs: seq<T>, key: T -> K, gs: seq<Group<K, T>>)
    requires bs != [] && GroupsMatch(bs[..|bs| - 1], gs, key) && FirstAppearanceOrder(bs[..|bs| - 1], gs, key)
    requires Covers(bs[..|bs| - 1], gs, key)
    requires forall j :: 0 <= j < |gs| ==> gs[j].key != key(bs[|bs| - 1])
    ensures var r := gs + [Group(key(bs[|bs| - 1]), [bs[|bs| - 1]])];
      GroupsMatch(bs, r, key) && FirstAppearanceOrder(bs, r, key)
  {
    NewKeyFacts(bs, key, gs);
  }

  lemma NewCovers<T, K>(bs: seq<T>, key: T -> K, gs: seq<Group<K, T>>)
    requires bs != [] && Covers(bs[..|bs| - 1], gs, key)
    ensures Covers(bs, gs + [Group(key(bs[|bs| - 1]), [bs[|bs| - 1]])], key)
  {
    var init := bs[..|bs| - 1];
    var r := gs + [Group(key(bs[|bs| - 1]), [bs[|bs| - 1]])];
    forall q | 0 <= q < |bs| ensures exists j :: 0 <= j < |r| && r[j].key == key(bs[q]) {
      if q < |bs| - 1 {
        assert bs[q] == init[q];
        var j :| 0 <= j < |gs| && gs[j].key == key(init[q]);
        assert r[j].key == key(bs[q]);
      } else {
        assert r[|gs|].key == key(bs[q]);
      }
    }
  }

  /** The last element's key is new: a group opens at the end. */
  lemma GroupingStepNew<T, K>(bs: seq<T>, key: T -> K, gs: seq<Group<K, T>>)
    requires bs != [] && Grouping(bs[..|bs| - 1], gs, key)
    requires forall j :: 0 <= j < |gs| ==> gs[j].key != key(bs[|bs| - 1])
    ensures Grouping(bs, AddToGroups(gs, bs[|bs| - 1], key(bs[|bs| - 1])), key)
    ensures TotalMembers(AddToGroups(gs, bs[|bs| - 1], key(bs[|bs| - 1]))) == TotalMembers(gs) + 1
  {
    var b := bs[|bs| - 1];
    AddToGroupsNew(gs, b, key(b));
    NewMatch(bs, key, gs);
    NewCovers(bs, key, gs);
  }

  /** Every group of a grouping is headed by the first element with its key. */
  lemma GroupsHeaded<T, K>(bs: seq<T>, gs: seq<Group<K, T>>, key: T -> K)
    requires GroupsMatch(bs, gs, key)
    ensures forall i :: 0 <= i < |gs| ==> gs[i].members != [] && gs[i].members[0] == bs[FirstAt(bs, gs[i].key, key)]
  {
    forall i | 0 <= i < |gs| ensures gs[i].members != [] && gs[i].members[0] == bs[FirstAt(bs, gs[i].key, key)] {
      OfKeyFirst(bs, gs[i].key, key, FirstAt(bs, gs[i].key, key));
    }
  }

  /** GroupBy is a grouping of its input, and the group sizes add up to the
      number of elements. */
  lemma {:induction false} GroupByGroups<T, K>(bs: seq<T>, key: T -> K)
    ensures Grouping(bs, GroupBy(bs, key), key)
    ensures TotalMembers(GroupBy(bs, key)) == |bs|
  {
    if bs != [] {
      var init := bs[..|bs| - 1];
      GroupByGroups(init, key);
      var gs := GroupBy(init, key);
      var k := key(bs[|bs| - 1]);
      if i :| 0 <= i < |gs| && gs[i].key == k {
        GroupingStepExisting(bs, key, gs, i);
      } else {
        GroupingStepNew(bs, key, gs);
      }
    }
  }
}
