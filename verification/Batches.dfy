/** The batch queries of the maintenance jobs: the eligible rows with the smallest
    keys, in order, up to a limit. */
module Batches {

  /** `i` put behind every entry whose key is not greater. */
  function Inserted(list: seq<nat>, i: nat, key: nat -> int): seq<nat> {
    if list == [] || key(list[|list| - 1]) <= key(i) then list + [i]
    else Inserted(list[..|list| - 1], i, key) + [list[|list| - 1]]
  }

  /** The eligible rows among the first `n`, by key. */
  function Ranked(n: nat, eligible: nat -> bool, key: nat -> int): seq<nat> {
    if n == 0 then []
    else if eligible(n - 1) then Inserted(Ranked(n - 1, eligible, key), n - 1, key)
    else Ranked(n - 1, eligible, key)
  }

  function Batch(n: nat, eligible: nat -> bool, key: nat -> int, limit: nat): seq<nat> {
    var all := Ranked(n, eligible, key);
    if |all| <= limit then all else all[..limit]
  }

  ghost predicate SortedBy(list: seq<nat>, key: nat -> int) {
    forall a, b :: 0 <= a < b < |list| ==> key(list[a]) <= key(list[b])
  }

  ghost predicate NoRepeats(list: seq<nat>) {
    forall a, b :: 0 <= a < b < |list| ==> list[a] != list[b]
  }

  lemma {:induction false} InsertedMembers(list: seq<nat>, i: nat, key: nat -> int)
    ensures forall x: nat :: x in Inserted(list, i, key) <==> x in list || x == i
  {
    if list != [] && key(list[|list| - 1]) > key(i) {
      InsertedMembers(list[..|list| - 1], i, key);
      assert list == list[..|list| - 1] + [list[|list| - 1]];
    }
  }

  lemma {:induction false} InsertedOrder(list: seq<nat>, i: nat, key: nat -> int)
    requires SortedBy(list, key) && NoRepeats(list) && i !in list
    ensures SortedBy(Inserted(list, i, key), key) && NoRepeats(Inserted(list, i, key))
  {
    if list == [] || key(list[|list| - 1]) <= key(i) {
      assert forall a :: 0 <= a < |list| ==> list[a] in list;
    } else {
      var front, last := list[..|list| - 1], list[|list| - 1];
      assert list == front + [last];
      assert SortedBy(front, key) && NoRepeats(front) && i !in front && last !in front;
      InsertedOrder(front, i, key);
      InsertedMembers(front, i, key);
      var r := Inserted(front, i, key);
      hide Inserted;
      forall a | 0 <= a < |r| ensures key(r[a]) <= key(last) && r[a] != last {
        assert r[a] in r;
      }
    }
  }

  lemma {:induction false} RankedIsExact(n: nat, eligible: nat -> bool, key: nat -> int)
    ensures forall x: nat :: x in Ranked(n, eligible, key) <==> x < n && eligible(x)
    ensures SortedBy(Ranked(n, eligible, key), key) && NoRepeats(Ranked(n, eligible, key))
  {
    hide Inserted, SortedBy, NoRepeats;
    if n == 0 {
      NothingRanked(key);
    } else {
      RankedIsExact(n - 1, eligible, key);
      InsertedMembers(Ranked(n - 1, eligible, key), n - 1, key);
      if eligible(n - 1) {
        InsertedOrder(Ranked(n - 1, eligible, key), n - 1, key);
      }
    }
  }

  lemma NothingRanked(key: nat -> int)
    ensures SortedBy([], key) && NoRepeats([])
  {
  }

  /** A batch holds different eligible rows in key order, and an eligible row is left
      out only by a full batch of rows whose keys are not greater. */
  lemma BatchIsOldest(n: nat, eligible: nat -> bool, key: nat -> int, limit: nat)
    ensures var batch := Batch(n, eligible, key, limit);
            && |batch| <= limit && SortedBy(batch, key) && NoRepeats(batch)
            && (forall k :: 0 <= k < |batch| ==> batch[k] < n && eligible(batch[k]))
            && (forall x: nat :: x < n && eligible(x) && x !in batch ==>
                  |batch| == limit && forall k :: 0 <= k < |batch| ==> key(batch[k]) <= key(x))
  {
    RankedIsExact(n, eligible, key);
    hide Ranked;
    var all, batch := Ranked(n, eligible, key), Batch(n, eligible, key, limit);
    assert forall k :: 0 <= k < |batch| ==> batch[k] == all[k] && all[k] in all && batch[k] in batch;
    forall x: nat | x < n && eligible(x) && x !in batch
      ensures |batch| == limit && forall k :: 0 <= k < |batch| ==> key(batch[k]) <= key(x)
    {
      assert x in all;
      var i :| 0 <= i < |all| && all[i] == x;
    }
  }
}
