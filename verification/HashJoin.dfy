/**
 The in-memory hash join shared by the edge loaders: foreign keys are collected into a duplicate-free
 list and an index, a sub-query is run, and its rows are distributed back through the index.
 */
module HashJoin {
  import opened Prelude

  // ---------- Specification: what the index has to say ----------

  /** The positions of `key` in `fks`, in order. */
  function Positions(fks: seq<Option<int>>, key: int): (ps: seq<nat>)
    ensures forall m :: 0 <= m < |ps| ==> ps[m] < |fks|
  {
    if fks == [] then []
    else
      var last := |fks| - 1;
      var ps := Positions(fks[..last], key);
      if fks[last] == Some(key) then ps + [last] else ps
  }

  /** The non-null keys of `fks`, each once, in the order of their first use. */
  function FirstUse(fks: seq<Option<int>>): (ids: seq<int>)
    ensures forall k :: k in ids <==> Some(k) in fks
  {
    if fks == [] then []
    else
      var last := |fks| - 1;
      var ids := FirstUse(fks[..last]);
      assert fks == fks[..last] + [fks[last]];
      if fks[last].Some? && fks[last].value !in ids then ids + [fks[last].value] else ids
  }

  /** The last position of `keys` that holds `fk`, or -1. */
  function Last(keys: seq<int>, fk: Option<int>): (j: int)
    ensures -1 <= j < |keys|
    ensures j >= 0 ==> fk == Some(keys[j])
    ensures forall i :: j < i < |keys| ==> fk != Some(keys[i])
  {
    if keys == [] then -1
    else
      var last := |keys| - 1;
      if fk == Some(keys[last]) then last else Last(keys[..last], fk)
  }

  /** Of the first `k` elements of `xs`, which carry the keys `keys`, the last one whose key is `fk`. */
  function Latest<T>(keys: seq<int>, xs: seq<T>, k: nat, fk: Option<int>): Option<T>
    requires k <= |xs| == |keys|
  {
    if k == 0 then None
    else if fk == Some(keys[k - 1]) then Some(xs[k - 1])
    else Latest(keys, xs, k - 1, fk)
  }

  /** The elements of `xs` at the positions `ps`. */
  function Gather<T>(xs: seq<T>, ps: seq<nat>): (ys: seq<T>)
    requires forall m :: 0 <= m < |ps| ==> ps[m] < |xs|
    ensures |ys| == |ps|
    ensures forall m :: 0 <= m < |ps| ==> ys[m] == xs[ps[m]]
  {
    seq(|ps|, m requires 0 <= m < |ps| => xs[ps[m]])
  }

  /** The elements of `xs` whose foreign key is `key`, in order. */
  function Part<T>(xs: seq<T>, fks: seq<Option<int>>, key: int): (ys: seq<T>)
    requires |xs| == |fks|
  {
    Gather(xs, Positions(fks, key))
  }

  ghost predicate Distinct<T>(xs: seq<T>) {
    forall i, j :: 0 <= i < j < |xs| ==> xs[i] != xs[j]
  }

  lemma {:induction false} PositionsExact(fks: seq<Option<int>>, key: int)
    ensures forall j: nat :: j in Positions(fks, key) <==> j < |fks| && fks[j] == Some(key)
  {
    if fks != [] {
      PositionsExact(fks[..|fks| - 1], key);
    }
  }

  ghost predicate Ascending(ps: seq<nat>) {
    forall m, n :: 0 <= m < n < |ps| ==> ps[m] < ps[n]
  }

  lemma {:induction false} PositionsAscend(fks: seq<Option<int>>, key: int)
    ensures Ascending(Positions(fks, key))
  {
    if fks != [] {
      PositionsAscend(fks[..|fks| - 1], key);
    }
  }

  lemma {:induction false} FirstUseOnce(fks: seq<Option<int>>)
    ensures Distinct(FirstUse(fks))
  {
    if fks != [] {
      FirstUseOnce(fks[..|fks| - 1]);
    }
  }

  lemma {:induction false} LatestNull<T>(keys: seq<int>, xs: seq<T>, k: nat)
    requires k <= |xs| == |keys|
    ensures Latest(keys, xs, k, None) == None
  {
    if k > 0 {
      LatestNull(keys, xs, k - 1);
    }
  }

  lemma PositionsStep(fks: seq<Option<int>>, k: nat)
    requires k < |fks|
    ensures forall key ::
            Positions(fks[..k + 1], key) == Positions(fks[..k], key) + if fks[k] == Some(key) then [k] else []
  {
    assert fks[..k + 1][..k] == fks[..k];
  }

  lemma PartStep<T>(xs: seq<T>, fks: seq<Option<int>>, k: nat)
    requires k < |xs| == |fks|
    ensures forall key ::
            Part(xs[..k + 1], fks[..k + 1], key) == Part(xs[..k], fks[..k], key) + if fks[k] == Some(key)
            then [xs[k]] else []
  {
    PositionsStep(fks, k);
  }

  lemma AbsentKey(fks: seq<Option<int>>, key: int)
    requires Some(key) !in fks
    ensures Positions(fks, key) == []
  {
    if fks != [] {
      AbsentKey(fks[..|fks| - 1], key);
    }
  }

  /** The M2O index: every key that is used leads to the positions that use it. */
  ghost predicate Indexed(nodeids: map<int, seq<nat>>, fks: seq<Option<int>>) {
    && (forall k :: k in nodeids <==> Some(k) in fks)
    && (forall k :: k in nodeids ==> nodeids[k] == Positions(fks, k))
  }

  /** The O2M index: every ID leads to the last node that has it. */
  ghost predicate IndexedByID(nodeids: map<int, nat>, ids: seq<int>) {
    && (forall k :: k in nodeids <==> k in ids)
    && (forall k :: k in nodeids ==> nodeids[k] == Last(ids, Some(k)))
  }

  /** Every foreign key of the neighbours belongs to the batch. */
  ghost predicate Known(fks: seq<Option<int>>, ids: seq<int>) {
    forall k :: k in fks ==> k.Some? && k.value in ids
  }

  /** Every neighbour is one that some node of the batch asked for. */
  ghost predicate Wanted(ids: seq<int>, fks: seq<Option<int>>) {
    forall k :: k in ids ==> Some(k) in fks
  }

  lemma WantedAt(ids: seq<int>, fks: seq<Option<int>>, nodeids: map<int, seq<nat>>, k: nat)
    requires k < |ids| && Wanted(ids, fks) && Indexed(nodeids, fks)
    ensures ids[k] in nodeids && nodeids[ids[k]] == Positions(fks, ids[k])
    ensures forall i: nat :: i in nodeids[ids[k]] <==> i < |fks| && fks[i] == Some(ids[k])
  {
    PositionsExact(fks, ids[k]);
  }

  lemma KnownAt(fks: seq<Option<int>>, ids: seq<int>, nodeids: map<int, nat>, k: nat)
    requires k < |fks| && Known(fks, ids) && IndexedByID(nodeids, ids)
    ensures fks[k].Some? && fks[k].value in ids && fks[k].value in nodeids
    ensures nodeids[fks[k].value] == Last(ids, fks[k])
  {
    var key := fks[k];
    assert key in fks;
    var id := key.value;
    assert id in ids;
    assert id in nodeids;
  }

  // ---------- The loops of the loaders ----------

  /** M2O, first half: the key list pushed into the sub-query and the index of waiting nodes. */
  method CollectKeys(fks: seq<Option<int>>) returns (ids: seq<int>, nodeids: map<int, seq<nat>>)
    ensures ids == FirstUse(fks)
    ensures Indexed(nodeids, fks)
  {
    ids, nodeids := [], map[];
    for i := 0 to |fks|
      invariant ids == FirstUse(fks[..i])
      invariant Indexed(nodeids, fks[..i])
    {
      PositionsStep(fks, i);
      assert fks[..i + 1] == fks[..i] + [fks[i]];
      assert fks[..i + 1][..i] == fks[..i];
      if fks[i].None? {
        continue;
      }
      var fk := fks[i].value;
      if fk !in nodeids {
        ids := ids + [fk];
        AbsentKey(fks[..i], fk);
        nodeids := nodeids[fk := [i]];
      } else {
        nodeids := nodeids[fk := nodeids[fk] + [i]];
      }
    }
    assert fks[..|fks|] == fks;
  }

  /** O2M, first half: the index from a node's ID to its position. */
  method IndexByID(ids: seq<int>) returns (nodeids: map<int, nat>)
    ensures IndexedByID(nodeids, ids)
  {
    nodeids := map[];
    for i := 0 to |ids|
      invariant IndexedByID(nodeids, ids[..i])
    {
      assert ids[..i + 1][..i] == ids[..i];
      nodeids := nodeids[ids[i] := i];
    }
    assert ids[..|ids|] == ids;
  }
}
