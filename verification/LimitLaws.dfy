/**
 A limit on a children sub-query applies to the whole batch, not to each parent: exactly when that makes no difference.
 */
module LimitLaws {
  import opened Prelude
  import opened HashJoin
  import opened QueryPlans
  import opened EagerLaws

  function Take<T>(xs: seq<T>, n: nat): seq<T> {
    if |xs| <= n then xs else xs[..n]
  }

  ghost predicate OneKey(fks: seq<Option<int>>) {
    forall i, j :: 0 <= i < |fks| && 0 <= j < |fks| ==> fks[i] == fks[j]
  }

  /** The limit cuts nothing, or all the rows belong to one parent. */
  ghost predicate Harmless(fks: seq<Option<int>>, n: nat) {
    |fks| <= n || OneKey(fks)
  }

  lemma {:induction false} PositionsAll(fks: seq<Option<int>>, key: int)
    ensures |Positions(fks, key)| <= |fks|
    ensures |Positions(fks, key)| == |fks| <==> forall i :: 0 <= i < |fks| ==> fks[i] == Some(key)
  {
    if fks != [] {
      PositionsAll(fks[..|fks| - 1], key);
    }
  }

  lemma {:induction false} PositionsGrow(fks: seq<Option<int>>, k: nat, key: int)
    requires k <= |fks|
    ensures Positions(fks[..k], key) <= Positions(fks, key)
    ensures |Positions(fks, key)| > |Positions(fks[..k], key)| <==> exists i :: k <= i < |fks| && fks[i] == Some(key)
  {
    if k == |fks| {
      assert fks[..k] == fks;
    } else {
      var last := |fks| - 1;
      PositionsGrow(fks[..last], k, key);
      assert fks[..last][..k] == fks[..k];
      if i :| k <= i < last && fks[i] == Some(key) {
        assert fks[..last][i] == fks[i];
      }
      if i :| k <= i < last && fks[..last][i] == Some(key) {
        assert fks[i] == Some(key);
      }
    }
  }

  ghost predicate CountsAgree(fks: seq<Option<int>>, n: nat, key: int) {
    |Positions(Take(fks, n), key)| == |Take(Positions(fks, key), n)|
  }

  /** Counting rows a parent: cutting the batch and cutting each parent's part agree exactly on a harmless limit. */
  lemma LimitCounts(fks: seq<Option<int>>, n: nat)
    requires n > 0 && forall i :: 0 <= i < |fks| ==> fks[i].Some?
    ensures (forall key :: Some(key) in fks ==> CountsAgree(fks, n, key)) <==> Harmless(fks, n)
  {
    hide Positions;
    if |fks| > n {
      var key := fks[n].value;
      assert fks[n] in fks;
      PositionsAll(fks[..n], key);
      PositionsGrow(fks, n, key);
      if forall k :: Some(k) in fks ==> CountsAgree(fks, n, k) {
        assert CountsAgree(fks, n, key);
        assert |Positions(fks[..n], key)| == n;
        assert forall i :: 0 <= i < n ==> fks[i] == fks[..n][i];
        forall i | n < i < |fks|
          ensures fks[i] == Some(key)
        {
          LaterRow(fks, n, key, i);
        }
      }
      if OneKey(fks) {
        forall k | Some(k) in fks
          ensures CountsAgree(fks, n, k)
        {
          assert Some(k) == fks[n];
          PositionsAll(fks, k);
        }
      }
    } else {
      forall k
        ensures CountsAgree(fks, n, k)
      {
        PositionsAll(fks, k);
      }
    }
  }

  /** A parent whose first row comes after the cut would go without. */
  lemma LaterRow(fks: seq<Option<int>>, n: nat, key: int, i: nat)
    requires 0 < n < i < |fks| && fks[i].Some?
    requires forall j :: 0 <= j < n ==> fks[j] == Some(key)
    requires CountsAgree(fks, n, fks[i].value)
    ensures fks[i] == Some(key)
  {
    hide Positions;
    var k := fks[i].value;
    PositionsGrow(fks, n, k);
    if k != key {
      assert Some(k) !in fks[..n];
      AbsentKey(fks[..n], k);
    }
  }

  lemma TakePart<R>(rows: seq<R>, fks: seq<Option<int>>, n: nat, key: int)
    requires |rows| == |fks| && CountsAgree(fks, n, key)
    ensures Part(Take(rows, n), Take(fks, n), key) == Take(Part(rows, fks, key), n)
  {
    hide Positions;
    if |fks| > n {
      PositionsGrow(fks, n, key);
    } else {
      PositionsAll(fks, key);
    }
  }

  // ---------- Children under a limit ----------

  predicate Limited(q: AccountPlan, n: nat) {
    n > 0 && q.base.limit == Some(n) && (q.base.offset.None? || q.base.offset.value == 0)
  }

  /** The rows the children query selects before its limit. */
  function Selected(db: Store, q: AccountPlan, ids: seq<int>): seq<AccountRow> {
    Select(PushChildren(q, ids).base.predicates, db.accounts(q.base.order))
  }

  lemma SelectedKeys(db: Store, q: AccountPlan, ids: seq<int>)
    ensures forall r :: r in Selected(db, q, ids) ==> r.parentAccountId.Some? && r.parentAccountId.value in ids
  {
    forall r | r in Selected(db, q, ids) {
      PassesPush(q.base.predicates, InValues(ParentColumn, ids), r);
    }
  }

  /** What the batch gives a parent and what its own lookup gives it, in rows. */
  lemma LimitedRows(db: Store, q: AccountPlan, ids: seq<int>, id: int, n: nat)
    requires Keyed(db) && NestedWhole(q) && Limited(q, n) && id in ids
    ensures var rows := Selected(db, q, ids);
            var fks := Keys(ParentColumn, rows);
            && BatchChildren(db, q, ids, id) ==
                LookupAll(db, q, ChildFields(q.fields), Part(Take(rows, n), Take(fks, n), id))
            && LookupChildren(db, q, id) == LookupAll(db, q, ChildFields(q.fields), Take(Part(rows, fks, id), n))
  {
    hide Batch, Lookup, LookupAll, Part, Keyed, Select;
    var q' := PushChildren(q, ids);
    var rows := Selected(db, q, ids);
    var nb := Exec(db.accounts, q'.base);
    assert nb == Take(rows, n);
    assert Keys(ParentColumn, nb) == Take(Keys(ParentColumn, rows), n);
    Refines(db, q', nb);
    DecodedKeys(q', nb);
    LookupAllOwnBase(db, q, q', q'.fields, nb);
    PartOfLookup(db, q, q'.fields, nb, Keys(ParentColumn, nb), id);
    SelectPart(q.base.predicates, ParentColumn, ids, id, db.accounts(q.base.order));
  }

  /**
   Under a limit on the children query, every parent of the batch gets what its own limited lookup gives it exactly
   when the batch selects no more rows than the limit, or all the rows it selects belong to one parent.
   */
  lemma LimitExactly(db: Store, q: AccountPlan, ids: seq<int>, n: nat)
    requires Keyed(db) && NestedWhole(q) && Limited(q, n)
    ensures (forall id :: id in ids ==> BatchChildren(db, q, ids, id) == LookupChildren(db, q, id)) <==>
            Harmless(Keys(ParentColumn, Selected(db, q, ids)), n)
  {
    hide Keyed, BatchChildren, LookupChildren, Selected, NestedWhole, Harmless, Positions, Part, CountsAgree;
    var rows := Selected(db, q, ids);
    var fks := Keys(ParentColumn, rows);
    SelectedKeys(db, q, ids);
    assert forall i :: 0 <= i < |fks| ==> rows[i] in rows;
    LimitCounts(fks, n);
    forall id | id in ids
      ensures BatchChildren(db, q, ids, id) == LookupChildren(db, q, id) <==> CountsAgree(fks, n, id)
    {
      LimitedRows(db, q, ids, id, n);
      SameIfCounted(db, q, rows, fks, n, id);
    }
    forall id | id in ids && Some(id) !in fks
      ensures CountsAgree(fks, n, id)
    {
      Uncounted(fks, n, id);
    }
    forall id | Some(id) in fks
      ensures id in ids
    {
    }
  }

  lemma Uncounted(fks: seq<Option<int>>, n: nat, id: int)
    requires Some(id) !in fks
    ensures CountsAgree(fks, n, id)
  {
    AbsentKey(fks, id);
    assert Some(id) !in Take(fks, n);
    AbsentKey(Take(fks, n), id);
  }

  lemma SameIfCounted(db: Store, q: AccountPlan, rows: seq<AccountRow>, fks: seq<Option<int>>, n: nat, id: int)
    requires |rows| == |fks|
    ensures var a, b := Part(Take(rows, n), Take(fks, n), id), Take(Part(rows, fks, id), n);
            LookupAll(db, q, ChildFields(q.fields), a) == LookupAll(db, q, ChildFields(q.fields), b) <==>
                CountsAgree(fks, n, id)
  {
    hide Lookup, Positions;
    if CountsAgree(fks, n, id) {
      TakePart(rows, fks, n, id);
    } else {
      var a, b := Part(Take(rows, n), Take(fks, n), id), Take(Part(rows, fks, id), n);
      assert |a| == |Positions(Take(fks, n), id)| && |b| == |Take(Positions(fks, id), n)|;
      assert |LookupAll(db, q, ChildFields(q.fields), a)| != |LookupAll(db, q, ChildFields(q.fields), b)|;
    }
  }

  // ---------- A child that a limit loses ----------

  function TwoChildren(x: AccountRow, y: AccountRow): Store {
    Store(_ => [x, y], _ => [], _ => [], _ => [])
  }

  function ChildrenLimit(n: nat): AccountPlan {
    AccountPlan(Settings([], [], Some(n), None, []), [], None, None, None, None, None)
  }

  lemma SelectMore<R(!new)>(ps: seq<Predicate<R>>, rows: seq<R>, r: R)
    requires Passes(ps, r)
    ensures Select(ps, rows + [r]) == Select(ps, rows) + [r]
  {
    hide Passes;
    assert (rows + [r])[..|rows|] == rows;
  }

  lemma OnePushed(ids: seq<int>)
    ensures PushChildren(ChildrenLimit(1), ids).base.predicates == [InValues(ParentColumn, ids)]
  {
  }

  lemma WantedPasses(ids: seq<int>, x: AccountRow, i: nat)
    requires i < |ids| && x.parentAccountId == Some(ids[i])
    ensures Passes([InValues(ParentColumn, ids)], x)
  {
  }

  lemma BothSelected(x: AccountRow, y: AccountRow, p: int, r: int)
    requires x.parentAccountId == Some(p) && y.parentAccountId == Some(r)
    ensures Selected(TwoChildren(x, y), ChildrenLimit(1), [p, r]) == [x, y]
  {
    hide Passes, PushChildren, Select;
    var ps := [InValues(ParentColumn, [p, r])];
    OnePushed([p, r]);
    WantedPasses([p, r], x, 0);
    WantedPasses([p, r], y, 1);
    SelectTwo(ps, x, y);
  }

  lemma SelectTwo(ps: seq<Predicate<AccountRow>>, x: AccountRow, y: AccountRow)
    requires Passes(ps, x) && Passes(ps, y)
    ensures Select(ps, [x, y]) == [x, y]
  {
    hide Passes;
    SelectMore(ps, [], x);
    SelectMore(ps, [x], y);
    assert [] + [x] == [x] && [x] + [y] == [x, y];
  }

  lemma TwoKeyed(x: AccountRow, y: AccountRow)
    requires x.id != y.id
    ensures Keyed(TwoChildren(x, y))
  {
  }

  lemma SecondCut(p: int, r: int)
    requires p != r
    ensures var fks := [Some(p), Some(r)]; Positions(Take(fks, 1), r) == [] && |Take(Positions(fks, r), 1)| == 1
  {
    var fks := [Some(p), Some(r)];
    assert Take(fks, 1) == [Some(p)] == fks[..1];
    AbsentKey(fks[..1], r);
    assert Positions(fks, r) == [1];
  }

  /**
   Two parents with one child each, and a limit of one: the second parent's child is lost, though its own lookup finds
   it.
   */
  lemma LimitLosesChild(x: AccountRow, y: AccountRow, p: int, r: int)
    requires x.parentAccountId == Some(p) && y.parentAccountId == Some(r) && p != r && x.id != y.id
    ensures var db, q := TwoChildren(x, y), ChildrenLimit(1);
            && Keyed(db) && NestedWhole(q) && Limited(q, 1)
            && BatchChildren(db, q, [p, r], r) == [] && |LookupChildren(db, q, r)| == 1
  {
    var db, q := TwoChildren(x, y), ChildrenLimit(1);
    TwoKeyed(x, y);
    BothSelected(x, y, p, r);
    assert Keys(ParentColumn, [x, y]) == [Some(p), Some(r)];
    hide TwoChildren, Keyed, BatchChildren, LookupChildren, Selected, Lookup, Positions, Take;
    LimitedRows(db, q, [p, r], r, 1);
    SecondCut(p, r);
  }
}
