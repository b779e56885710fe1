/**
 Eager loading agrees with its naive definition: for each node, run each requested sub-query on its own.
 */
module EagerLaws {
  import opened Prelude
  import opened HashJoin
  import opened QueryPlans

  // ---------- The naive definition ----------

  function Head<T>(xs: seq<T>): Option<T> {
    if xs == [] then None else Some(xs[0])
  }

  function LookupProxy(db: Store, q: Settings<ProxyRow>, fk: Option<int>): Option<ProxyRow> {
    if fk.None? then None else Head(Exec(db.proxies, Push(q, InValues(ProxyId, [fk.value]))))
  }

  function LookupGroup(db: Store, q: Settings<GroupRow>, id: int): Option<GroupRow> {
    Head(Exec(db.groups, Push(q, InValues(GroupId, [id]))))
  }

  predicate InJoins(joins: seq<JoinRow>, account: int, group: int) {
    exists k :: 0 <= k < |joins| && joins[k].accountId == account && joins[k].groupId == group
  }

  /** The groups that a row of the join table links to the account, in table order. */
  function Linked(gs: seq<GroupRow>, joins: seq<JoinRow>, account: int): seq<GroupRow> {
    if gs == [] then []
    else
      var g := gs[|gs| - 1];
      Linked(gs[..|gs| - 1], joins, account) + if InJoins(joins, account, g.id) then [g] else []
  }

  function LookupGroups(db: Store, q: Settings<GroupRow>, account: int): seq<GroupRow> {
    Window(Linked(Select(q.predicates, db.groups(q.order)), db.accountGroups([]), account), q.limit, q.offset)
  }

  function LookupJoins(db: Store, q: JoinPlan, account: int): seq<JoinTree> {
    var q' := PushJoin(q, [account]);
    var rows := Exec(db.accountGroups, q'.base);
    seq(|rows|, i requires 0 <= i < |rows| =>
      JoinTree(DecodeJoin(JoinColumns(q'), rows[i]), q.group.Some?,
               if q.group.None? then None else LookupGroup(db, q.group.value, rows[i].groupId)))
  }

  function ChildFields(fields: seq<string>): seq<string> {
    if fields == [] then [] else AppendOnce(fields, PARENT_ACCOUNT_ID)
  }

  /** The tree of one row: every edge is looked up for this row alone. */
  function Lookup(db: Store, p: AccountPlan, fields: seq<string>, row: AccountRow): AccountTree
    decreases p, 0
  {
    AccountTree(
      Decode(Columns(fields, p.proxy.Some?, p.parent.Some?), row), LoadedTypes(p),
      if p.groups.None? then [] else LookupGroups(db, p.groups.value, row.id),
      if p.proxy.None? then None else LookupProxy(db, p.proxy.value, row.proxyId),
      if p.parent.None? || row.parentAccountId.None? then None
      else LookupParent(db, p.parent.value, row.parentAccountId.value),
      if p.children.None? then [] else LookupChildren(db, p.children.value, row.id),
      if p.accountGroups.None? then [] else LookupJoins(db, p.accountGroups.value, row.id))
  }

  function LookupParent(db: Store, q: AccountPlan, fk: int): Option<AccountTree>
    decreases q, 2
  {
    var rows := Exec(db.accounts, Push(q.base, InValues(AccountId, [fk])));
    if rows == [] then None else Some(Lookup(db, q, q.fields, rows[0]))
  }

  function LookupChildren(db: Store, q: AccountPlan, id: int): (ts: seq<AccountTree>)
    decreases q, 2
  {
    LookupAll(db, q, ChildFields(q.fields), Exec(db.accounts, Push(q.base, InValues(ParentColumn, [id]))))
  }

  function LookupAll(db: Store, q: AccountPlan, fields: seq<string>, rows: seq<AccountRow>): (ts: seq<AccountTree>)
    ensures |ts| == |rows|
    decreases q, 1
  {
    seq(|rows|, i requires 0 <= i < |rows| => Lookup(db, q, fields, rows[i]))
  }

  // ---------- Plans whose sub-queries have no window ----------

  predicate Whole<R>(q: Settings<R>) {
    (q.limit.None? || q.limit.value == 0) && (q.offset.None? || q.offset.value == 0)
  }

  predicate WholeJoin(q: JoinPlan) {
    Whole(q.base) && (q.group.Some? ==> Whole(q.group.value))
  }

  /** No query below the root has a limit or an offset. */
  predicate NestedWhole(p: AccountPlan) {
    && (p.groups.Some? ==> Whole(p.groups.value))
    && (p.proxy.Some? ==> Whole(p.proxy.value))
    && (p.parent.Some? ==> Whole(p.parent.value.base) && NestedWhole(p.parent.value))
    && (p.children.Some? ==> Whole(p.children.value.base) && NestedWhole(p.children.value))
    && (p.accountGroups.Some? ==> WholeJoin(p.accountGroups.value))
  }

  // ---------- One pushed list against one pushed key ----------

  lemma PassesPush<R>(ps: seq<Predicate<R>>, p: Predicate<R>, r: R)
    ensures Passes(ps + [p], r) <==> Passes(ps, r) && Holds(p, r)
  {
    var qs := ps + [p];
    assert forall k :: 0 <= k < |ps| ==> qs[k] == ps[k];
    assert qs[|ps|] == p;
  }

  lemma PartSnoc<R>(column: R -> Option<int>, xs: seq<R>, x: R, id: int)
    ensures var ys := xs + [x];
            Part(ys, Keys(column, ys), id) == Part(xs, Keys(column, xs), id) + if column(x) == Some(id) then [x] else []
  {
    var ys := xs + [x];
    var ks := Keys(column, ys);
    assert ys[..|xs|] == xs && ks[..|xs|] == Keys(column, xs);
    PartStep(ys, ks, |xs|);
    assert ys[..|ys|] == ys && ks[..|ys|] == ks;
  }

  /** The rows of a batch query that carry one of its keys are the rows of the query for that key alone. */
  lemma {:induction false} SelectPart<R(!new)>(ps: seq<Predicate<R>>, column: R -> Option<int>, ids: seq<int>,
          id: int, rows: seq<R>)
    requires id in ids
    ensures var nb := Select(ps + [InValues(column, ids)], rows);
            Part(nb, Keys(column, nb), id) == Select(ps + [InValues(column, [id])], rows)
  {
    hide Part, Passes, Keys;
    var many, one := ps + [InValues(column, ids)], ps + [InValues(column, [id])];
    if rows == [] {
      PartNothing(column, id);
    } else {
      var last := |rows| - 1;
      var r := rows[last];
      SelectPart(ps, column, ids, id, rows[..last]);
      PassesPush(ps, InValues(column, ids), r);
      PassesPush(ps, InValues(column, [id]), r);
      PartSnoc(column, Select(many, rows[..last]), r, id);
      SelectStep(many, rows);
      SelectStep(one, rows);
      assert Passes(one, r) <==> Passes(many, r) && column(r) == Some(id);
    }
  }

  lemma SelectStep<R(!new)>(ps: seq<Predicate<R>>, rows: seq<R>)
    requires rows != []
    ensures var last := |rows| - 1;
            Select(ps, rows) == if Passes(ps, rows[last]) then Select(ps, rows[..last]) + [rows[last]]
                else Select(ps, rows[..last])
  {
  }

  lemma PartNothing<R>(column: R -> Option<int>, id: int)
    ensures Part<R>([], Keys(column, []), id) == []
  {
  }

  lemma ExecPart<R(!new)>(table: Table<R>, q: Settings<R>, column: R -> Option<int>, ids: seq<int>, id: int)
    requires Whole(q) && id in ids
    ensures var nb := Exec(table, Push(q, InValues(column, ids)));
            Part(nb, Keys(column, nb), id) == Exec(table, Push(q, InValues(column, [id])))
  {
    SelectPart(q.predicates, column, ids, id, table(q.order));
  }

  lemma SameKey<R>(column: R -> Option<int>, rows: seq<R>, a: nat, b: nat)
    requires DistinctKeys(column, rows) && a < |rows| && b < |rows| && column(rows[a]) == column(rows[b])
    ensures a == b
  {
  }

  /** M2O: the neighbour that the index picks for a key is the one row of the query for that key alone. */
  lemma PickOne<R(!new)>(table: Table<R>, q: Settings<R>, column: R -> Option<int>, ids: seq<int>, keys: seq<int>,
          id: int)
    requires Whole(q) && id in ids && DistinctKeys(column, table(q.order))
    requires var nb := Exec(table, Push(q, InValues(column, ids)));
             |keys| == |nb| && forall i :: 0 <= i < |nb| ==> column(nb[i]) == Some(keys[i])
    ensures var nb := Exec(table, Push(q, InValues(column, ids)));
            var one := Exec(table, Push(q, InValues(column, [id])));
            var j := Last(keys, Some(id));
            if j < 0 then one == [] else one != [] && one[0] == nb[j]
  {
    hide Exec, Last, Positions;
    var nb := Exec(table, Push(q, InValues(column, ids)));
    var ks := Keys(column, nb);
    var j := Last(keys, Some(id));
    ExecPart(table, q, column, ids, id);
    ExecDistinct(column, table, Push(q, InValues(column, ids)));
    PositionsExact(ks, id);
    var ps := Positions(ks, id);
    if j < 0 {
      assert Some(id) !in ks by {
        assert forall i :: 0 <= i < |keys| ==> ks[i] == Some(keys[i]);
      }
      AbsentKey(ks, id);
    } else {
      assert j in ps;
      assert ps[0] in ps;
      SameKey(column, nb, ps[0], j);
    }
  }

  lemma {:induction false} LatestAt<T>(keys: seq<int>, xs: seq<T>, k: nat, fk: Option<int>)
    requires k <= |xs| == |keys|
    ensures var j := Last(keys[..k], fk);
            Latest(keys, xs, k, fk) == if j < 0 then None else Some(xs[j])
  {
    if k > 0 {
      LatestAt(keys, xs, k - 1, fk);
      assert keys[..k][..k - 1] == keys[..k - 1];
    }
  }

  lemma LatestIs<T>(keys: seq<int>, xs: seq<T>, fk: Option<int>)
    requires |xs| == |keys|
    ensures var j := Last(keys, fk);
            Latest(keys, xs, |xs|, fk) == if j < 0 then None else Some(xs[j])
  {
    LatestAt(keys, xs, |xs|, fk);
    assert keys[..|keys|] == keys;
  }

  lemma UsedKey(fks: seq<Option<int>>, i: nat)
    requires i < |fks| && fks[i].Some?
    ensures fks[i].value in FirstUse(fks)
  {
    assert fks[i] in fks;
  }

  lemma RefinesProxy(db: Store, q: Settings<ProxyRow>, fks: seq<Option<int>>, i: nat)
    requires Keyed(db) && Whole(q) && i < |fks|
    ensures BatchProxy(db, q, fks, fks[i]) == LookupProxy(db, q, fks[i])
  {
    var nb := Exec(db.proxies, PushProxy(q, fks));
    if fks[i].None? {
      LatestNull(ProxyIDs(nb), nb, |nb|);
    } else {
      UsedKey(fks, i);
      PickOne(db.proxies, q, ProxyId, FirstUse(fks), ProxyIDs(nb), fks[i].value);
      LatestIs(ProxyIDs(nb), nb, fks[i]);
    }
  }

  lemma RefinesGroup(db: Store, q: Settings<GroupRow>, fks: seq<Option<int>>, i: nat)
    requires Keyed(db) && Whole(q) && i < |fks| && fks[i].Some?
    ensures BatchGroup(db, q, fks, fks[i]) == LookupGroup(db, q, fks[i].value)
  {
    var nb := Exec(db.groups, PushGroup(q, fks));
    UsedKey(fks, i);
    PickOne(db.groups, q, GroupId, FirstUse(fks), GroupIDs(nb), fks[i].value);
    LatestIs(GroupIDs(nb), nb, fks[i]);
  }

  // ---------- The recursive edges ----------

  /** What a query selects for itself plays no part in the edges of the rows it is given. */
  lemma LookupOwnBase(db: Store, q: AccountPlan, q': AccountPlan, fields: seq<string>, r: AccountRow)
    requires q' == q.(base := q'.base, fields := q'.fields)
    ensures Lookup(db, q', fields, r) == Lookup(db, q, fields, r)
  {
  }

  lemma LookupAllOwnBase(db: Store, q: AccountPlan, q': AccountPlan, fields: seq<string>, rows: seq<AccountRow>)
    requires q' == q.(base := q'.base, fields := q'.fields)
    ensures LookupAll(db, q', fields, rows) == LookupAll(db, q, fields, rows)
  {
    forall i | 0 <= i < |rows|
      ensures LookupAll(db, q', fields, rows)[i] == LookupAll(db, q, fields, rows)[i]
    {
      LookupOwnBase(db, q, q', fields, rows[i]);
    }
  }

  lemma DecodedKeys(p: AccountPlan, rows: seq<AccountRow>)
    ensures var es := DecodeAll(p, rows);
            && (forall i :: 0 <= i < |rows| ==> es[i].id == rows[i].id)
            && (p.proxy.Some? ==> forall i :: 0 <= i < |rows| ==> es[i].proxyId == rows[i].proxyId)
            && (p.parent.Some? ==> forall i :: 0 <= i < |rows| ==> es[i].parentAccountId == rows[i].parentAccountId)
            && (p.fields == [] || PARENT_ACCOUNT_ID in p.fields ==> ParentKeys(es) == Keys(ParentColumn, rows))
  {
    ColumnsHoldKeys(p.fields, p.proxy.Some?, p.parent.Some?);
  }

  lemma RefinesParent(db: Store, q: AccountPlan, fks: seq<Option<int>>, i: nat)
    requires Keyed(db) && Whole(q.base) && i < |fks|
    requires var q' := PushParent(q, fks);
             var nb := Exec(db.accounts, q'.base);
             Batch(db, q', nb) == LookupAll(db, q', q'.fields, nb)
    ensures BatchParent(db, q, fks, fks[i]) == if fks[i].None? then None else LookupParent(db, q, fks[i].value)
  {
    hide Batch, Exec, Lookup;
    var q' := PushParent(q, fks);
    var nb := Exec(db.accounts, q'.base);
    var keys := IDs(DecodeAll(q', nb));
    if fks[i].None? {
      LatestNull(keys, Batch(db, q', nb), |nb|);
    } else {
      DecodedKeys(q', nb);
      UsedKey(fks, i);
      PickOne(db.accounts, q.base, AccountId, FirstUse(fks), keys, fks[i].value);
      LatestIs(keys, Batch(db, q', nb), fks[i]);
      LookupAllOwnBase(db, q, q', q.fields, nb);
    }
  }

  lemma PartOfLookup(db: Store, q: AccountPlan, fields: seq<string>, rows: seq<AccountRow>, fks: seq<Option<int>>,
          id: int)
    requires |fks| == |rows|
    ensures Part(LookupAll(db, q, fields, rows), fks, id) == LookupAll(db, q, fields, Part(rows, fks, id))
  {
  }

  lemma RefinesChildren(db: Store, q: AccountPlan, ids: seq<int>, id: int)
    requires Whole(q.base) && id in ids
    requires var q' := PushChildren(q, ids);
             var nb := Exec(db.accounts, q'.base);
             Batch(db, q', nb) == LookupAll(db, q', q'.fields, nb)
    ensures BatchChildren(db, q, ids, id) == LookupChildren(db, q, id)
  {
    hide Batch, Exec, Lookup, LookupAll, Part;
    var q' := PushChildren(q, ids);
    var nb := Exec(db.accounts, q'.base);
    DecodedKeys(q', nb);
    ExecPart(db.accounts, q.base, ParentColumn, ids, id);
    LookupAllOwnBase(db, q, q', q'.fields, nb);
    PartOfLookup(db, q, q'.fields, nb, Keys(ParentColumn, nb), id);
  }

  // ---------- The join entity ----------

  lemma JoinColumnsHoldKeys(q: JoinPlan, ids: seq<int>)
    ensures var cols := JoinColumns(PushJoin(q, ids));
            ACCOUNT_ID in cols && (q.group.Some? ==> GROUP_ID in cols)
  {
    assert JOIN_COLUMNS[0] == ACCOUNT_ID && JOIN_COLUMNS[1] == GROUP_ID;
  }

  function JoinTreeOf(db: Store, q: JoinPlan, cols: seq<string>, r: JoinRow): JoinTree {
    JoinTree(DecodeJoin(cols, r), q.group.Some?, if q.group.None? then None
        else LookupGroup(db, q.group.value, r.groupId))
  }

  lemma RefinesJoinTrees(db: Store, q: JoinPlan, ids: seq<int>, rows: seq<JoinRow>, i: nat)
    requires Keyed(db) && WholeJoin(q) && i < |rows|
    ensures var q' := PushJoin(q, ids); JoinTrees(db, q', rows)[i] == JoinTreeOf(db, q, JoinColumns(q'), rows[i])
  {
    hide BatchGroup, LookupGroup, Keyed;
    var q' := PushJoin(q, ids);
    JoinColumnsHoldKeys(q, ids);
    var es := DecodeJoins(q', rows);
    if q.group.Some? {
      RefinesGroup(db, q.group.value, JoinGroupKeys(es), i);
    }
  }

  lemma RefinesJoins(db: Store, q: JoinPlan, ids: seq<int>, id: int)
    requires Keyed(db) && WholeJoin(q) && id in ids
    ensures BatchJoins(db, q, ids, id) == LookupJoins(db, q, id)
  {
    hide Exec, JoinTrees, Keyed;
    var q' := PushJoin(q, ids);
    var nb := Exec(db.accountGroups, q'.base);
    var ks := JoinAccountKeys(DecodeJoins(q', nb));
    JoinColumnsHoldKeys(q, ids);
    assert ks == Keys(JoinAccountColumn, nb);
    ExecPart(db.accountGroups, q.base, JoinAccountColumn, ids, id);
    var ps := Positions(ks, id);
    forall m | 0 <= m < |ps|
      ensures BatchJoins(db, q, ids, id)[m] == LookupJoins(db, q, id)[m]
    {
      RefinesJoinTrees(db, q, ids, nb, ps[m]);
    }
  }

  // ---------- M2M ----------

  lemma PairedConcat(s: seq<PairRow>, t: seq<PairRow>, account: int, group: int)
    ensures Paired(s + t, account, group) <==> Paired(s, account, group) || Paired(t, account, group)
  {
    var st := s + t;
    assert forall i :: 0 <= i < |s| ==> st[i] == s[i];
    assert forall i :: 0 <= i < |t| ==> st[|s| + i] == t[i];
  }

  lemma InJoinsLast(joins: seq<JoinRow>, account: int, group: int)
    requires joins != []
    ensures var last := |joins| - 1;
            InJoins(joins, account, group) <==>
            InJoins(joins[..last], account, group) || (joins[last].accountId == account && joins[last].groupId == group)
  {
    var init := joins[..|joins| - 1];
    assert forall k :: 0 <= k < |init| ==> init[k] == joins[k];
  }

  lemma {:induction false} PairedOf(g: GroupRow, joins: seq<JoinRow>, ids: seq<int>, account: int, group: int)
    ensures Paired(PairsOf(g, joins, ids), account, group) <==>
            g.id == group && account in ids && InJoins(joins, account, group)
  {
    if joins != [] {
      var last := |joins| - 1;
      PairedOf(g, joins[..last], ids, account, group);
      InJoinsLast(joins, account, group);
      var j := joins[last];
      if j.groupId == g.id && j.accountId in ids {
        var pairs := PairsOf(g, joins, ids);
        PairedLast(pairs, account, group);
        assert pairs[..|pairs| - 1] == PairsOf(g, joins[..last], ids);
      } else {
        assert PairsOf(g, joins, ids) == PairsOf(g, joins[..last], ids);
      }
    }
  }

  /** The joined stream pairs exactly what the join table links. */
  lemma {:induction false} PairedStream(gs: seq<GroupRow>, joins: seq<JoinRow>, ids: seq<int>, account: int, group: int)
    ensures Paired(PairStream(gs, joins, ids), account, group) <==>
            HasGroup(gs, group) && account in ids && InJoins(joins, account, group)
  {
    if gs != [] {
      var last := |gs| - 1;
      PairedStream(gs[..last], joins, ids, account, group);
      PairedOf(gs[last], joins, ids, account, group);
      PairedConcat(PairStream(gs[..last], joins, ids), PairsOf(gs[last], joins, ids), account, group);
      HasGroupLast(gs);
    }
  }

  /** Pairs of one group add that group once, unless it is known already. */
  lemma {:induction false} NeighborsOneGroup(s: seq<PairRow>, t: seq<PairRow>, g: GroupRow)
    requires forall i :: 0 <= i < |t| ==> t[i].group == g
    ensures Neighbors(s + t) == if t == [] || HasGroup(Neighbors(s), g.id) then Neighbors(s) else Neighbors(s) + [g]
  {
    if t == [] {
      assert s + t == s;
    } else {
      var last := |t| - 1;
      NeighborsOneGroup(s, t[..last], g);
      assert (s + t)[..|s + t| - 1] == s + t[..last];
      HasGroupLast(Neighbors(s) + [g]);
    }
  }

  lemma {:induction false} PairsOneGroup(g: GroupRow, joins: seq<JoinRow>, ids: seq<int>)
    ensures forall i :: 0 <= i < |PairsOf(g, joins, ids)| ==> PairsOf(g, joins, ids)[i].group == g
  {
    if joins != [] {
      PairsOneGroup(g, joins[..|joins| - 1], ids);
    }
  }

  lemma {:induction false} NeighborsFrom(gs: seq<GroupRow>, joins: seq<JoinRow>, ids: seq<int>, id: int)
    requires HasGroup(Neighbors(PairStream(gs, joins, ids)), id)
    ensures HasGroup(gs, id)
  {
    if gs != [] {
      var last := |gs| - 1;
      var s := PairStream(gs[..last], joins, ids);
      PairsOneGroup(gs[last], joins, ids);
      NeighborsOneGroup(s, PairsOf(gs[last], joins, ids), gs[last]);
      HasGroupLast(gs);
      HasGroupLast(Neighbors(s) + [gs[last]]);
      assert (Neighbors(s) + [gs[last]])[..|Neighbors(s)|] == Neighbors(s);
      if HasGroup(Neighbors(s), id) {
        NeighborsFrom(gs[..last], joins, ids, id);
      }
    }
  }

  lemma FreshGroup(gs: seq<GroupRow>, k: nat, joins: seq<JoinRow>, ids: seq<int>)
    requires k < |gs| && DistinctKeys(GroupId, gs)
    ensures HasGroup(gs, gs[k].id) && !HasGroup(Neighbors(PairStream(gs[..k], joins, ids)), gs[k].id)
  {
    var g := gs[k];
    assert !HasGroup(gs[..k], g.id) by {
      assert forall i :: 0 <= i < k ==> GroupId(gs[i]) != GroupId(g);
    }
    if HasGroup(Neighbors(PairStream(gs[..k], joins, ids)), g.id) {
      NeighborsFrom(gs[..k], joins, ids, g.id);
    }
  }

  lemma KeepPairedSnoc(ns: seq<GroupRow>, g: GroupRow, stream: seq<PairRow>, account: int)
    ensures KeepPaired(ns + [g], stream, account) ==
            KeepPaired(ns, stream, account) + if Paired(stream, account, g.id) then [g] else []
  {
    assert (ns + [g])[..|ns|] == ns;
  }

  /** Over a prefix of the groups: keeping the paired neighbours of the stream is keeping the linked groups. */
  lemma {:induction false} RefinesGroupsPrefix(gs: seq<GroupRow>, k: nat, joins: seq<JoinRow>, ids: seq<int>,
          account: int)
    requires k <= |gs| && account in ids && DistinctKeys(GroupId, gs)
    ensures KeepPaired(Neighbors(PairStream(gs[..k], joins, ids)), PairStream(gs, joins, ids), account) ==
            Linked(gs[..k], joins, account)
  {
    hide HasGroup, InJoins, PairsOf, DistinctKeys, Neighbors;
    var stream := PairStream(gs, joins, ids);
    if k == 0 {
      NoPairs();
    } else {
      var g := gs[k - 1];
      var s, t := PairStream(gs[..k - 1], joins, ids), PairsOf(g, joins, ids);
      assert gs[..k][..k - 1] == gs[..k - 1] && gs[..k][k - 1] == g;
      RefinesGroupsPrefix(gs, k - 1, joins, ids, account);
      PairsOneGroup(g, joins, ids);
      NeighborsOneGroup(s, t, g);
      FreshGroup(gs, k - 1, joins, ids);
      PairedStream(gs, joins, ids, account, g.id);
      PairedOf(g, joins, ids, account, g.id);
      assert t == [] ==> !Paired(t, account, g.id);
      KeepPairedSnoc(Neighbors(s), g, stream, account);
    }
  }

  lemma NoPairs()
    ensures Neighbors([]) == []
  {
  }

  lemma RefinesGroups(db: Store, q: Settings<GroupRow>, ids: seq<int>, account: int)
    requires Keyed(db) && Whole(q) && account in ids
    ensures GroupsOf(ExecPairs(db, q, ids), account) == LookupGroups(db, q, account)
  {
    var gs := Select(q.predicates, db.groups(q.order));
    SelectDistinct(GroupId, q.predicates, db.groups(q.order));
    RefinesGroupsPrefix(gs, |gs|, db.accountGroups([]), ids, account);
    assert gs[..|gs|] == gs;
  }

  // ---------- The main theorem ----------

  lemma RefinesLeaves(db: Store, p: AccountPlan, rows: seq<AccountRow>, i: nat)
    requires Keyed(db) && NestedWhole(p) && i < |rows|
    ensures var es, t := DecodeAll(p, rows), Lookup(db, p, p.fields, rows[i]);
            && es[i] == t.entity && EdgeGroups(db, p, es, i) == t.groups && EdgeProxy(db, p, es, i) == t.proxy
            && EdgeJoins(db, p, es, i) == t.accountGroups
  {
    hide Keyed, BatchProxy, LookupProxy, GroupsOf, LookupGroups, BatchJoins, LookupJoins, LookupParent,
         LookupChildren;
    var es := DecodeAll(p, rows);
    DecodedKeys(p, rows);
    assert es[i].id in IDs(es) by { assert IDs(es)[i] == es[i].id; }
    if p.groups.Some? {
      RefinesGroups(db, p.groups.value, IDs(es), es[i].id);
    }
    if p.proxy.Some? {
      RefinesProxy(db, p.proxy.value, ProxyKeys(es), i);
    }
    if p.accountGroups.Some? {
      RefinesJoins(db, p.accountGroups.value, IDs(es), es[i].id);
    }
  }

  /** The parent and the children, given that the runs below refine. */
  lemma RefinesNested(db: Store, p: AccountPlan, rows: seq<AccountRow>, i: nat)
    requires Keyed(db) && NestedWhole(p) && i < |rows|
    requires p.parent.Some? ==> BelowRefines(db, PushParent(p.parent.value, ParentKeys(DecodeAll(p, rows))))
    requires p.children.Some? ==> BelowRefines(db, PushChildren(p.children.value, IDs(DecodeAll(p, rows))))
    ensures var es, t := DecodeAll(p, rows), Lookup(db, p, p.fields, rows[i]);
            EdgeParent(db, p, es, i) == t.parent && EdgeChildren(db, p, es, i) == t.children
  {
    hide Batch, Exec, Keyed, LookupProxy, LookupGroups, LookupJoins, BatchParent, BatchChildren, LookupParent,
         LookupChildren, Decode;
    var es := DecodeAll(p, rows);
    DecodedKeys(p, rows);
    assert es[i].id in IDs(es) by { assert IDs(es)[i] == es[i].id; }
    if p.parent.Some? {
      RefinesParent(db, p.parent.value, ParentKeys(es), i);
    }
    if p.children.Some? {
      RefinesChildren(db, p.children.value, IDs(es), es[i].id);
    }
  }

  ghost predicate BelowRefines(db: Store, q: AccountPlan) {
    var nb := Exec(db.accounts, q.base);
    Batch(db, q, nb) == LookupAll(db, q, q.fields, nb)
  }

  lemma {:induction false} RefinesTree(db: Store, p: AccountPlan, rows: seq<AccountRow>, i: nat)
    requires Keyed(db) && NestedWhole(p) && i < |rows|
    ensures BatchTree(db, p, rows, i) == Lookup(db, p, p.fields, rows[i])
    decreases Depth(p), 0
  {
    hide Batch, Exec, Keyed, EdgeGroups, EdgeProxy, EdgeParent, EdgeChildren, EdgeJoins, LookupAll, LookupGroups,
         LookupProxy, LookupParent, LookupChildren, LookupJoins;
    var es := DecodeAll(p, rows);
    if p.parent.Some? {
      var q := PushParent(p.parent.value, ParentKeys(es));
      Refines(db, q, Exec(db.accounts, q.base));
    }
    if p.children.Some? {
      var q := PushChildren(p.children.value, IDs(es));
      Refines(db, q, Exec(db.accounts, q.base));
    }
    RefinesLeaves(db, p, rows, i);
    RefinesNested(db, p, rows, i);
  }

  /** The hash joins of a whole batch give each node what its own lookups would: at every level, for any batch. */
  lemma {:induction false} Refines(db: Store, p: AccountPlan, rows: seq<AccountRow>)
    requires Keyed(db) && NestedWhole(p)
    ensures Batch(db, p, rows) == LookupAll(db, p, p.fields, rows)
    decreases Depth(p), 1
  {
    forall i | 0 <= i < |rows|
      ensures Batch(db, p, rows)[i] == LookupAll(db, p, p.fields, rows)[i]
    {
      RefinesTree(db, p, rows, i);
    }
  }
}
