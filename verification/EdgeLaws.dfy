/**
 Laws of the loaded edges: what the accessors report, how parents and children mirror each other, how an O2M
 load splits its neighbours, what an M2M stream gives each account, and the two routes to an account's groups.
 */
module EdgeLaws {
  import opened Prelude
  import opened HashJoin
  import opened QueryPlans
  import opened Entities
  import opened EagerLaws

  // ---------- Found, not found, not loaded ----------

  /** A row that an M2O edge may load: it has the key and passes the sub-query's own conditions. */
  ghost predicate Candidate(db: Store, q: AccountPlan, fk: Option<int>, r: AccountRow) {
    r in db.accounts(q.base.order) && fk == Some(r.id) && Passes(q.base.predicates, r)
  }

  ghost predicate ProxyCandidate(db: Store, q: Settings<ProxyRow>, fk: Option<int>, r: ProxyRow) {
    r in db.proxies(q.order) && fk == Some(r.id) && Passes(q.predicates, r)
  }

  lemma SelectWhole<R(!new)>(table: Table<R>, q: Settings<R>, p: Predicate<R>)
    requires Whole(q)
    ensures forall r :: r in Exec(table, Push(q, p)) <==> r in table(q.order) && Passes(q.predicates, r) && Holds(p, r)
  {
    assert Exec(table, Push(q, p)) == Select(q.predicates + [p], table(q.order));
    forall r {
      PassesPush(q.predicates, p, r);
    }
  }

  /** ParentOrErr on a loaded node: exactly one of its three answers, each with its exact cause. */
  lemma ParentTrichotomy(db: Store, p: AccountPlan, rows: seq<AccountRow>, i: nat, nodes: seq<Account>, S: set<object>)
    requires Keyed(db) && NestedWhole(p) && i < |rows|
    requires ChildrenShow(nodes, Batch(db, p, rows), S)
    ensures var fk := rows[i].parentAccountId;
            var answer := nodes[i].ParentOrErr();
            && (answer.NotLoaded? <==> p.parent.None?)
            && (answer.NotFound? <==> p.parent.Some? && forall r :: !Candidate(db, p.parent.value, fk, r))
            && (answer.Found? <==> p.parent.Some? && exists r :: Candidate(db, p.parent.value, fk, r))
            && (answer.Found? ==> forall r :: Candidate(db, p.parent.value, fk, r) ==>
                 Shows(answer.value, Lookup(db, p.parent.value, p.parent.value.fields, r), S))
  {
    hide Keyed, NestedWhole, Whole, LookupParent, Passes;
    RefinesTree(db, p, rows, i);
    if p.parent.Some? && rows[i].parentAccountId.Some? {
      NestedParent(p);
      LookupParentExactly(db, p.parent.value, rows[i].parentAccountId.value);
    }
  }

  lemma NestedParent(p: AccountPlan)
    requires NestedWhole(p)
    ensures p.parent.Some? ==> Whole(p.parent.value.base)
    ensures p.proxy.Some? ==> Whole(p.proxy.value)
  {
  }

  lemma LookupParentExactly(db: Store, q: AccountPlan, fk: int)
    requires Keyed(db) && Whole(q.base)
    ensures var t := LookupParent(db, q, fk);
            && (t.None? <==> forall r :: !Candidate(db, q, Some(fk), r))
            && (t.Some? ==> forall r :: Candidate(db, q, Some(fk), r) ==> t.value == Lookup(db, q, q.fields, r))
  {
    hide Exec, Passes, Lookup, Whole;
    var one := Exec(db.accounts, Push(q.base, InValues(AccountId, [fk])));
    SelectWhole(db.accounts, q.base, InValues(AccountId, [fk]));
    assert forall r :: r in one <==> Candidate(db, q, Some(fk), r);
    if one != [] {
      assert one[0] in one;
      forall r | Candidate(db, q, Some(fk), r)
        ensures r == one[0]
      {
        SameRow(db.accounts(q.base.order), r, one[0]);
      }
    }
  }

  lemma SameRow(rows: seq<AccountRow>, a: AccountRow, b: AccountRow)
    requires DistinctKeys(AccountId, rows) && a in rows && b in rows && a.id == b.id
    ensures a == b
  {
    var i :| 0 <= i < |rows| && rows[i] == a;
    var j :| 0 <= j < |rows| && rows[j] == b;
    assert AccountId(rows[i]) == AccountId(rows[j]);
  }

  lemma SameProxy(rows: seq<ProxyRow>, a: ProxyRow, b: ProxyRow)
    requires DistinctKeys(ProxyId, rows) && a in rows && b in rows && a.id == b.id
    ensures a == b
  {
    var i :| 0 <= i < |rows| && rows[i] == a;
    var j :| 0 <= j < |rows| && rows[j] == b;
    assert ProxyId(rows[i]) == ProxyId(rows[j]);
  }

  lemma ProxyTrichotomy(db: Store, p: AccountPlan, rows: seq<AccountRow>, i: nat, nodes: seq<Account>, S: set<object>)
    requires Keyed(db) && NestedWhole(p) && i < |rows|
    requires ChildrenShow(nodes, Batch(db, p, rows), S)
    ensures var fk := rows[i].proxyId;
            var answer := nodes[i].ProxyOrErr();
            && (answer.NotLoaded? <==> p.proxy.None?)
            && (answer.NotFound? <==> p.proxy.Some? && forall r :: !ProxyCandidate(db, p.proxy.value, fk, r))
            && (forall r :: answer == Found(r) <==> p.proxy.Some? && ProxyCandidate(db, p.proxy.value, fk, r))
  {
    hide Keyed, NestedWhole, Whole, LookupProxy, Passes;
    RefinesTree(db, p, rows, i);
    if p.proxy.Some? {
      NestedParent(p);
      LookupProxyExactly(db, p.proxy.value, rows[i].proxyId);
    }
  }

  lemma LookupProxyExactly(db: Store, q: Settings<ProxyRow>, fk: Option<int>)
    requires Keyed(db) && Whole(q)
    ensures forall r :: LookupProxy(db, q, fk) == Some(r) <==> ProxyCandidate(db, q, fk, r)
  {
    hide Exec, Passes, Whole;
    if fk.Some? {
      var one := Exec(db.proxies, Push(q, InValues(ProxyId, [fk.value])));
      SelectWhole(db.proxies, q, InValues(ProxyId, [fk.value]));
      assert forall r :: r in one <==> ProxyCandidate(db, q, fk, r);
      if one != [] {
        assert one[0] in one;
        forall r | ProxyCandidate(db, q, fk, r)
          ensures r == one[0]
        {
          SameProxy(db.proxies(q.order), r, one[0]);
        }
      }
    }
  }

  lemma ShownAt(nodes: seq<Account>, ts: seq<AccountTree>, i: nat, S: set<object>)
    requires ChildrenShow(nodes, ts, S) && i < |ts|
    ensures |nodes| == |ts| && Shows(nodes[i], ts[i], S)
  {
    hide Shows;
  }

  lemma AnswerShows(n: Account, t: AccountTree, S: set<object>)
    requires Shows(n, t, S)
    ensures var answer := n.ChildrenOrErr();
            if t.loaded.children then answer.Found? && ChildrenShow(answer.value, t.children, S) else answer.NotLoaded?
  {
  }

  lemma LookupEdge(db: Store, p: AccountPlan, row: AccountRow)
    ensures var t := Lookup(db, p, p.fields, row);
            && t.loaded.children == p.children.Some?
            && (p.children.Some? ==> t.children == LookupChildren(db, p.children.value, row.id))
  {
    hide LookupChildren, LookupParent, LookupGroups, LookupProxy, LookupJoins;
  }

  /** ChildrenOrErr on a loaded node: its children as it would look them up itself, unless they were not requested. */
  lemma ChildrenAnswer(db: Store, p: AccountPlan, rows: seq<AccountRow>, i: nat, nodes: seq<Account>, S: set<object>)
    requires Keyed(db) && NestedWhole(p) && i < |rows|
    requires ChildrenShow(nodes, Batch(db, p, rows), S)
    ensures var answer := nodes[i].ChildrenOrErr();
            && (answer.NotLoaded? <==> p.children.None?)
            && (p.children.Some? ==>
                answer.Found? && ChildrenShow(answer.value, LookupChildren(db, p.children.value, rows[i].id), S))
  {
    hide Keyed, NestedWhole, LookupChildren, Lookup, BatchTree, Shows, ChildrenShow;
    RefinesTree(db, p, rows, i);
    ShownAt(nodes, Batch(db, p, rows), i, S);
    AnswerShows(nodes[i], BatchTree(db, p, rows, i), S);
    LookupEdge(db, p, rows[i]);
  }

  // ---------- Parents and children mirror each other ----------

  ghost predicate Among(ts: seq<AccountTree>, id: int) {
    exists k :: 0 <= k < |ts| && ts[k].entity.id == id
  }

  ghost predicate HasChild(t: AccountTree, id: int) {
    Among(t.children, id)
  }

  ghost predicate HasParent(t: AccountTree, id: int) {
    t.parent.Some? && t.parent.value.entity.id == id
  }

  lemma KeyedAccounts(db: Store, order: seq<OrderTerm>, r: AccountRow)
    requires Keyed(db)
    ensures DistinctKeys(AccountId, db.accounts(order))
    ensures r in db.accounts(order) <==> r in db.accounts([])
  {
  }

  lemma LookupId(db: Store, p: AccountPlan, fields: seq<string>, r: AccountRow)
    ensures Lookup(db, p, fields, r).entity.id == r.id
  {
    ColumnsHoldKeys(fields, p.proxy.Some?, p.parent.Some?);
  }

  lemma ChildExactly(db: Store, p: AccountPlan, rows: seq<AccountRow>, i: nat, b: AccountRow)
    requires Keyed(db) && NestedWhole(p) && p.children.Some? && i < |rows| && b in db.accounts([])
    ensures HasChild(Batch(db, p, rows)[i], b.id) <==>
            b.parentAccountId == Some(rows[i].id) && Passes(p.children.value.base.predicates, b)
  {
    RefinesTree(db, p, rows, i);
    LookupsChild(db, p.children.value, rows[i].id, b);
    assert Lookup(db, p, p.fields, rows[i]).children == LookupChildren(db, p.children.value, rows[i].id);
  }

  lemma LookupsChild(db: Store, q: AccountPlan, id: int, b: AccountRow)
    requires Keyed(db) && Whole(q.base) && b in db.accounts([])
    ensures Among(LookupChildren(db, q, id), b.id) <==> b.parentAccountId == Some(id) && Passes(q.base.predicates, b)
  {
    hide Keyed, Lookup, Exec, Passes, Whole;
    var found := Exec(db.accounts, Push(q.base, InValues(ParentColumn, [id])));
    var ts := LookupChildren(db, q, id);
    SelectWhole(db.accounts, q.base, InValues(ParentColumn, [id]));
    KeyedAccounts(db, q.base.order, b);
    assert ts == LookupAll(db, q, ChildFields(q.fields), found);
    forall k | 0 <= k < |ts|
      ensures ts[k].entity.id == found[k].id
    {
      LookupId(db, q, ChildFields(q.fields), found[k]);
    }
    if Among(ts, b.id) {
      var k :| 0 <= k < |ts| && ts[k].entity.id == b.id;
      assert found[k] in found;
      SameRow(db.accounts(q.base.order), found[k], b);
      assert b in found;
    }
    if b in found {
      var k :| 0 <= k < |found| && found[k] == b;
      assert ts[k].entity.id == b.id;
    }
    assert b in found <==> b.parentAccountId == Some(id) && Passes(q.base.predicates, b);
  }

  lemma ParentExactly(db: Store, p: AccountPlan, rows: seq<AccountRow>, j: nat, a: AccountRow)
    requires Keyed(db) && NestedWhole(p) && p.parent.Some? && j < |rows| && a in db.accounts([])
    ensures HasParent(Batch(db, p, rows)[j], a.id) <==>
            rows[j].parentAccountId == Some(a.id) && Passes(p.parent.value.base.predicates, a)
  {
    RefinesTree(db, p, rows, j);
    if rows[j].parentAccountId.Some? {
      LookupsParent(db, p.parent.value, rows[j].parentAccountId.value, a);
    }
  }

  lemma LookupsParent(db: Store, q: AccountPlan, fk: int, a: AccountRow)
    requires Keyed(db) && Whole(q.base) && a in db.accounts([])
    ensures var t := LookupParent(db, q, fk);
            (t.Some? && t.value.entity.id == a.id) <==> fk == a.id && Passes(q.base.predicates, a)
  {
    hide Keyed, Lookup, Exec, Passes, Whole;
    var one := Exec(db.accounts, Push(q.base, InValues(AccountId, [fk])));
    SelectWhole(db.accounts, q.base, InValues(AccountId, [fk]));
    KeyedAccounts(db, q.base.order, a);
    if one != [] {
      assert one[0] in one;
      LookupId(db, q, q.fields, one[0]);
      if one[0].id == a.id {
        SameRow(db.accounts(q.base.order), one[0], a);
      }
    }
  }

  /** b is among a's loaded children exactly when a is b's loaded parent, up to what the two sub-queries filter out. */
  lemma ChildrenInvertParent(db: Store, p: AccountPlan, rows: seq<AccountRow>, i: nat, j: nat)
    requires Keyed(db) && NestedWhole(p) && p.parent.Some? && p.children.Some?
    requires i < |rows| && j < |rows| && rows[i] in db.accounts([]) && rows[j] in db.accounts([])
    ensures var ts := Batch(db, p, rows);
            HasChild(ts[i], rows[j].id) && Passes(p.parent.value.base.predicates, rows[i]) <==>
            HasParent(ts[j], rows[i].id) && Passes(p.children.value.base.predicates, rows[j])
  {
    ChildExactly(db, p, rows, i, rows[j]);
    ParentExactly(db, p, rows, j, rows[i]);
  }

  // ---------- An O2M load splits its neighbours ----------

  function Total<T>(xs: seq<T>, fks: seq<Option<int>>, ids: seq<int>): multiset<T>
    requires |xs| == |fks|
  {
    if ids == [] then multiset{}
    else Total(xs, fks, ids[..|ids| - 1]) + multiset(Part(xs, fks, ids[|ids| - 1]))
  }

  lemma {:induction false} TotalStep<T>(xs: seq<T>, fks: seq<Option<int>>, k: nat, ids: seq<int>)
    requires k < |xs| == |fks| && Distinct(ids)
    ensures Total(xs[..k + 1], fks[..k + 1], ids) ==
            Total(xs[..k], fks[..k], ids) + if fks[k].Some? && fks[k].value in ids then multiset{xs[k]} else multiset{}
  {
    if ids != [] {
      var last := |ids| - 1;
      var id := ids[last];
      assert ids == ids[..last] + [id];
      TotalStep(xs, fks, k, ids[..last]);
      PartStep(xs, fks, k);
      assert id !in ids[..last];
    }
  }

  lemma {:induction false} TotalPrefix<T>(xs: seq<T>, fks: seq<Option<int>>, k: nat, ids: seq<int>)
    requires k <= |xs| == |fks| && Distinct(ids) && Known(fks, ids)
    ensures Total(xs[..k], fks[..k], ids) == multiset(xs[..k])
  {
    if k == 0 {
      TotalNothing<T>(ids);
    } else {
      TotalPrefix(xs, fks, k - 1, ids);
      TotalStep(xs, fks, k - 1, ids);
      assert fks[k - 1] in fks;
      assert xs[..k] == xs[..k - 1] + [xs[k - 1]];
    }
  }

  lemma {:induction false} TotalNothing<T>(ids: seq<int>)
    ensures Total<T>([], [], ids) == multiset{}
  {
    if ids != [] {
      TotalNothing<T>(ids[..|ids| - 1]);
    }
  }

  /**
   For distinct nodes the parts lose nothing, repeat nothing, and each keeps the neighbours' order; the keys may be
   nullable.
   */
  lemma PartsSplit<T>(xs: seq<T>, fks: seq<Option<int>>, ids: seq<int>)
    requires |xs| == |fks| && Distinct(ids) && Known(fks, ids)
    ensures Total(xs, fks, ids) == multiset(xs)
    ensures forall id :: Part(xs, fks, id) == Gather(xs, Positions(fks, id)) && Ascending(Positions(fks, id))
  {
    TotalPrefix(xs, fks, |xs|, ids);
    assert xs[..|xs|] == xs && fks[..|xs|] == fks;
    forall id {
      PositionsAscend(fks, id);
    }
  }

  // ---------- The key list of an M2O load ----------

  function FirstPosition(fks: seq<Option<int>>, key: int): int {
    if Positions(fks, key) == [] then -1 else Positions(fks, key)[0]
  }

  lemma FirstPositionStep(fks: seq<Option<int>>, key: int)
    requires fks != []
    ensures var last := |fks| - 1;
            var before := FirstPosition(fks[..last], key);
            && before < last
            && FirstPosition(fks, key) == if before >= 0 then before else if fks[last] == Some(key) then last else -1
  {
    var ps := Positions(fks[..|fks| - 1], key);
    assert ps != [] ==> ps[0] < |fks| - 1;
  }

  /** The pushed keys are those in use, each once, in the order of their first use. */
  lemma {:induction false} FirstUseInOrder(fks: seq<Option<int>>)
    ensures forall m :: 0 <= m < |FirstUse(fks)| ==> FirstPosition(fks, FirstUse(fks)[m]) >= 0
    ensures forall m, n :: 0 <= m < n < |FirstUse(fks)| ==>
            FirstPosition(fks, FirstUse(fks)[m]) < FirstPosition(fks, FirstUse(fks)[n])
  {
    if fks != [] {
      var last := |fks| - 1;
      var init := FirstUse(fks[..last]);
      var ids := FirstUse(fks);
      FirstUseInOrder(fks[..last]);
      assert forall m :: 0 <= m < |init| ==> FirstPosition(fks[..last], init[m]) >= 0;
      forall m | 0 <= m < |init|
        ensures ids[m] == init[m] && 0 <= FirstPosition(fks, ids[m]) < last
        ensures FirstPosition(fks, ids[m]) == FirstPosition(fks[..last], init[m])
      {
        assert ids[m] == init[m] && FirstPosition(fks[..last], init[m]) >= 0;
        FirstPositionStep(fks, init[m]);
      }
      if |init| < |ids| {
        NewKey(fks);
      }
    }
  }

  lemma NewKey(fks: seq<Option<int>>)
    requires fks != [] && fks[|fks| - 1].Some? && fks[|fks| - 1].value !in FirstUse(fks[..|fks| - 1])
    ensures FirstPosition(fks, fks[|fks| - 1].value) == |fks| - 1
  {
    AbsentKey(fks[..|fks| - 1], fks[|fks| - 1].value);
  }

  // ---------- What an M2M stream gives an account ----------

  /** The first position of a group in a stream, or -1. */
  function FirstAt(stream: seq<PairRow>, group: int): (j: int)
    ensures -1 <= j < |stream|
  {
    if stream == [] then -1
    else
      var last := |stream| - 1;
      var before := FirstAt(stream[..last], group);
      if before >= 0 then before else if stream[last].group.id == group then last else -1
  }

  /** Groups of the stream as they first appear in it, in that order, none twice. */
  ghost predicate InStreamOrder(gs: seq<GroupRow>, stream: seq<PairRow>) {
    && (forall m :: 0 <= m < |gs| ==>
        FirstAt(stream, gs[m].id) >= 0 && gs[m] == stream[FirstAt(stream, gs[m].id)].group)
    && (forall m, n :: 0 <= m < n < |gs| ==> FirstAt(stream, gs[m].id) < FirstAt(stream, gs[n].id))
  }

  lemma FirstAtStep(stream: seq<PairRow>, group: int)
    requires stream != []
    ensures var last := |stream| - 1;
            var before := FirstAt(stream[..last], group);
            FirstAt(stream, group) == if before >= 0 then before else if stream[last].group.id == group then last
                else -1
  {
  }

  lemma OrderExtends(gs: seq<GroupRow>, stream: seq<PairRow>)
    requires stream != [] && InStreamOrder(gs, stream[..|stream| - 1])
    ensures InStreamOrder(gs, stream)
    ensures forall m :: 0 <= m < |gs| ==> FirstAt(stream, gs[m].id) < |stream| - 1
  {
    hide FirstAt;
    var init := stream[..|stream| - 1];
    forall m | 0 <= m < |gs|
      ensures FirstAt(stream, gs[m].id) == FirstAt(init, gs[m].id) >= 0
    {
      assert FirstAt(init, gs[m].id) >= 0;
      FirstAtStep(stream, gs[m].id);
    }
  }

  lemma {:induction false} NeighborsExact(stream: seq<PairRow>)
    ensures InStreamOrder(Neighbors(stream), stream)
    ensures forall group :: HasGroup(Neighbors(stream), group) <==> FirstAt(stream, group) >= 0
  {
    hide FirstAt, HasGroup;
    if stream == [] {
      NoNeighbors();
    } else {
      var last := |stream| - 1;
      var init := stream[..last];
      var gs, g := Neighbors(init), stream[last].group;
      NeighborsExact(init);
      OrderExtends(gs, stream);
      FirstAtStep(stream, g.id);
      HasGroupLast(gs + [g]);
      assert (gs + [g])[..|gs|] == gs;
      forall group
        ensures HasGroup(Neighbors(stream), group) <==> FirstAt(stream, group) >= 0
      {
        FirstAtStep(stream, group);
      }
    }
  }

  lemma NoNeighbors()
    ensures forall group :: !HasGroup(Neighbors([]), group) && FirstAt([], group) == -1
  {
  }

  lemma {:induction false} KeepPairedHas(gs: seq<GroupRow>, stream: seq<PairRow>, account: int, group: int)
    ensures HasGroup(KeepPaired(gs, stream, account), group) <==> HasGroup(gs, group) && Paired(stream, account, group)
  {
    if gs != [] {
      var g := gs[|gs| - 1];
      var kept := KeepPaired(gs[..|gs| - 1], stream, account);
      KeepPairedHas(gs[..|gs| - 1], stream, account, group);
      HasGroupLast(gs);
      HasGroupLast(kept + [g]);
      assert (kept + [g])[..|kept|] == kept && kept + [] == kept;
    }
  }

  lemma {:induction false} KeepPairedOrder(gs: seq<GroupRow>, stream: seq<PairRow>, account: int)
    requires InStreamOrder(gs, stream)
    ensures InStreamOrder(KeepPaired(gs, stream, account), stream)
    ensures forall g :: g in KeepPaired(gs, stream, account) ==> g in gs
  {
    hide FirstAt, Paired;
    if gs != [] {
      var last := |gs| - 1;
      assert gs == gs[..last] + [gs[last]];
      KeepPairedOrder(gs[..last], stream, account);
      var kept := KeepPaired(gs[..last], stream, account);
      forall m | 0 <= m < |kept|
        ensures FirstAt(stream, kept[m].id) < FirstAt(stream, gs[last].id)
      {
        assert kept[m] in gs[..last];
      }
    }
  }

  lemma {:induction false} PairedFirst(stream: seq<PairRow>, account: int, group: int)
    requires Paired(stream, account, group)
    ensures FirstAt(stream, group) >= 0
  {
    if stream != [] {
      var last := |stream| - 1;
      PairedLast(stream, account, group);
      if Paired(stream[..last], account, group) {
        PairedFirst(stream[..last], account, group);
      }
    }
  }

  /**
   For every stream: an account gets exactly the groups paired with it, each once though rows repeat, by first
   appearance.
   */
  lemma GroupsOfExact(stream: seq<PairRow>, account: int)
    ensures forall group :: HasGroup(GroupsOf(stream, account), group) <==> Paired(stream, account, group)
    ensures InStreamOrder(GroupsOf(stream, account), stream)
  {
    var gs := Neighbors(stream);
    NeighborsExact(stream);
    KeepPairedOrder(gs, stream, account);
    forall group {
      KeepPairedHas(gs, stream, account, group);
    }
    forall group | Paired(stream, account, group)
      ensures FirstAt(stream, group) >= 0
    {
      PairedFirst(stream, account, group);
    }
  }

  // ---------- Two routes to an account's groups ----------

  /** The groups reached through loaded join entities. */
  function Reached(ts: seq<JoinTree>): seq<int> {
    if ts == [] then []
    else
      var t := ts[|ts| - 1];
      Reached(ts[..|ts| - 1]) + if t.group.Some? then [t.group.value.id] else []
  }

  ghost predicate UniquePairs(rows: seq<JoinRow>) {
    forall i, j :: 0 <= i < j < |rows| ==> rows[i].accountId != rows[j].accountId || rows[i].groupId != rows[j].groupId
  }

  lemma {:induction false} LinkedExactly(gs: seq<GroupRow>, joins: seq<JoinRow>, account: int, id: int)
    ensures id in GroupIDs(Linked(gs, joins, account)) <==> HasGroup(gs, id) && InJoins(joins, account, id)
  {
    if gs != [] {
      var last := |gs| - 1;
      LinkedExactly(gs[..last], joins, account, id);
      HasGroupLast(gs);
      var l := Linked(gs[..last], joins, account);
      assert GroupIDs(l + [gs[last]]) == GroupIDs(l) + [gs[last].id];
      assert l + [] == l;
    }
  }

  lemma {:induction false} LinkedOnce(gs: seq<GroupRow>, joins: seq<JoinRow>, account: int)
    requires DistinctKeys(GroupId, gs)
    ensures Distinct(GroupIDs(Linked(gs, joins, account)))
  {
    if gs != [] {
      var last := |gs| - 1;
      var l := Linked(gs[..last], joins, account);
      LinkedOnce(gs[..last], joins, account);
      LinkedExactly(gs[..last], joins, account, gs[last].id);
      assert !HasGroup(gs[..last], gs[last].id) by {
        assert forall i :: 0 <= i < last ==> GroupId(gs[i]) != GroupId(gs[last]);
      }
      assert GroupIDs(l + [gs[last]]) == GroupIDs(l) + [gs[last].id];
      assert l + [] == l;
    }
  }

  lemma {:induction false} ReachedExactly(ts: seq<JoinTree>, id: int)
    ensures id in Reached(ts) <==> exists k :: 0 <= k < |ts| && ts[k].group.Some? && ts[k].group.value.id == id
  {
    if ts != [] {
      var last := |ts| - 1;
      var init := ts[..last];
      ReachedExactly(init, id);
      assert forall k :: 0 <= k < last ==> init[k] == ts[k];
    }
  }

  lemma LookupGroupExactly(db: Store, q: Settings<GroupRow>, id: int)
    requires Keyed(db) && Whole(q)
    ensures var g := LookupGroup(db, q, id);
            && (g.Some? ==> g.value.id == id)
            && (g.Some? <==> exists r :: r in db.groups([]) && r.id == id && Passes(q.predicates, r))
  {
    var one := Exec(db.groups, Push(q, InValues(GroupId, [id])));
    SelectWhole(db.groups, q, InValues(GroupId, [id]));
    assert forall r :: r in one <==> r in db.groups([]) && r.id == id && Passes(q.predicates, r) by {
      forall r { KeyedGroups(db, q.order, r); }
    }
    if one != [] {
      assert one[0] in one;
    }
  }

  lemma KeyedGroups(db: Store, order: seq<OrderTerm>, r: GroupRow)
    requires Keyed(db)
    ensures DistinctKeys(GroupId, db.groups(order))
    ensures r in db.groups(order) <==> r in db.groups([])
  {
  }

  lemma KeyedJoins(db: Store, order: seq<OrderTerm>, r: JoinRow)
    requires Keyed(db)
    ensures r in db.accountGroups(order) <==> r in db.accountGroups([])
  {
  }

  /** A group of the first route: it exists, passes the conditions and is linked to the account. */
  ghost predicate Route(db: Store, ps: seq<Predicate<GroupRow>>, account: int, id: int) {
    && (exists r :: r in db.groups([]) && r.id == id && Passes(ps, r))
    && (exists j :: j in db.accountGroups([]) && j.accountId == account && j.groupId == id)
  }

  lemma DirectRoute(db: Store, q: Settings<GroupRow>, account: int, id: int)
    requires Keyed(db) && Whole(q)
    ensures id in GroupIDs(LookupGroups(db, q, account)) <==> Route(db, q.predicates, account, id)
    ensures Distinct(GroupIDs(LookupGroups(db, q, account)))
  {
    var gs := Select(q.predicates, db.groups(q.order));
    var joins := db.accountGroups([]);
    LinkedExactly(gs, joins, account, id);
    SelectDistinct(GroupId, q.predicates, db.groups(q.order));
    LinkedOnce(gs, joins, account);
    forall r { KeyedGroups(db, q.order, r); }
    if HasGroup(gs, id) {
      var i :| 0 <= i < |gs| && gs[i].id == id;
      assert gs[i] in gs;
    }
    if r :| r in gs && r.id == id {
      var i :| 0 <= i < |gs| && gs[i] == r;
      assert HasGroup(gs, id);
    }
    if InJoins(joins, account, id) {
      var k :| 0 <= k < |joins| && joins[k].accountId == account && joins[k].groupId == id;
      assert joins[k] in joins;
    }
  }

  lemma JoinRoute(db: Store, q: JoinPlan, account: int, id: int)
    requires Keyed(db) && WholeJoin(q) && q.base.predicates == [] && q.group.Some?
    ensures id in Reached(LookupJoins(db, q, account)) <==> Route(db, q.group.value.predicates, account, id)
  {
    hide Keyed, Exec, LookupGroup, Whole, Passes;
    var rows := Exec(db.accountGroups, PushJoin(q, [account]).base);
    var ts := LookupJoins(db, q, account);
    ReachedExactly(ts, id);
    JoinRows(db, q, account);
    forall k | 0 <= k < |rows|
      ensures ts[k].group == LookupGroup(db, q.group.value, rows[k].groupId) && rows[k] in rows
      ensures ts[k].group.Some? ==> ts[k].group.value.id == rows[k].groupId
    {
      LookupGroupExactly(db, q.group.value, rows[k].groupId);
    }
    LookupGroupExactly(db, q.group.value, id);
    if Route(db, q.group.value.predicates, account, id) {
      var j :| j in db.accountGroups([]) && j.accountId == account && j.groupId == id;
      assert j in rows;
      var k :| 0 <= k < |rows| && rows[k] == j;
      assert ts[k].group.Some? && ts[k].group.value.id == id;
    }
  }

  lemma JoinRows(db: Store, q: JoinPlan, account: int)
    requires Keyed(db) && WholeJoin(q) && q.base.predicates == []
    ensures forall j :: j in Exec(db.accountGroups, PushJoin(q, [account]).base) <==>
            j in db.accountGroups([]) && j.accountId == account
  {
    SelectWhole(db.accountGroups, q.base, InValues(JoinAccountColumn, [account]));
    forall j { KeyedJoins(db, q.base.order, j); }
  }

  lemma {:induction false} DistinctCount<T>(xs: seq<T>, x: T)
    requires Distinct(xs)
    ensures multiset(xs)[x] == if x in xs then 1 else 0
  {
    if xs != [] {
      var last := |xs| - 1;
      DistinctCount(xs[..last], x);
      assert xs == xs[..last] + [xs[last]];
    }
  }

  lemma {:induction false} ReachedOnce(db: Store, q: JoinPlan, rows: seq<JoinRow>, cols: seq<string>, account: int,
          k: nat)
    requires Keyed(db) && WholeJoin(q) && q.group.Some? && UniquePairs(rows) && k <= |rows|
    requires forall j :: j in rows ==> j.accountId == account
    ensures var ts := seq(k, i requires 0 <= i < k => JoinTreeOf(db, q, cols, rows[i]));
            Distinct(Reached(ts)) && forall id :: id in Reached(ts) ==> exists i :: 0 <= i < k && rows[i].groupId == id
  {
    hide Keyed, LookupGroup, Whole;
    if k > 0 {
      var ts := seq(k, i requires 0 <= i < k => JoinTreeOf(db, q, cols, rows[i]));
      var init := seq(k - 1, i requires 0 <= i < k - 1 => JoinTreeOf(db, q, cols, rows[i]));
      ReachedOnce(db, q, rows, cols, account, k - 1);
      assert ts[..k - 1] == init;
      LookupGroupExactly(db, q.group.value, rows[k - 1].groupId);
      assert forall i :: 0 <= i < k ==> rows[i] in rows;
      assert rows[k - 1].groupId !in Reached(init);
    }
  }

  lemma JoinRouteOnce(db: Store, q: JoinPlan, account: int)
    requires Keyed(db) && WholeJoin(q) && q.base.predicates == [] && q.group.Some?
    requires UniquePairs(Exec(db.accountGroups, PushJoin(q, [account]).base))
    ensures Distinct(Reached(LookupJoins(db, q, account)))
  {
    hide Keyed, Exec, LookupGroup, WholeJoin, UniquePairs, Distinct, Reached;
    var rows := Exec(db.accountGroups, PushJoin(q, [account]).base);
    var cols := JoinColumns(PushJoin(q, [account]));
    JoinRows(db, q, account);
    ReachedOnce(db, q, rows, cols, account, |rows|);
    assert LookupJoins(db, q, account) == seq(|rows|, i requires 0 <= i < |rows| => JoinTreeOf(db, q, cols, rows[i]));
  }

  lemma {:induction false} SelectUnique(ps: seq<Predicate<JoinRow>>, rows: seq<JoinRow>)
    requires UniquePairs(rows)
    ensures UniquePairs(Select(ps, rows))
  {
    if rows != [] {
      var last := |rows| - 1;
      SelectUnique(ps, rows[..last]);
      var s := Select(ps, rows[..last]);
      forall i | 0 <= i < |s|
        ensures s[i].accountId != rows[last].accountId || s[i].groupId != rows[last].groupId
      {
        assert s[i] in rows[..last];
      }
    }
  }

  /**
   The M2M edge and the detour through the join entity reach the same groups, whatever the store; and, when no
   pair is stored twice, each the same number of times.
   */
  lemma TwoRoutesAgree(db: Store, p: AccountPlan, rows: seq<AccountRow>, i: nat)
    requires Keyed(db) && NestedWhole(p) && i < |rows|
    requires p.groups.Some? && p.accountGroups.Some? && p.accountGroups.value.base.predicates == []
    requires p.accountGroups.value.group.Some? &&
            p.accountGroups.value.group.value.predicates == p.groups.value.predicates
    ensures var t := Batch(db, p, rows)[i];
            && (forall id :: id in GroupIDs(t.groups) <==> id in Reached(t.accountGroups))
            && (UniquePairs(db.accountGroups(p.accountGroups.value.base.order)) ==>
                 multiset(GroupIDs(t.groups)) == multiset(Reached(t.accountGroups)))
  {
    hide Keyed, NestedWhole, LookupGroups, LookupJoins, UniquePairs, Reached;
    var q, jq, account := p.groups.value, p.accountGroups.value, rows[i].id;
    RefinesTree(db, p, rows, i);
    assert Lookup(db, p, p.fields, rows[i]).groups == LookupGroups(db, q, account);
    assert Lookup(db, p, p.fields, rows[i]).accountGroups == LookupJoins(db, jq, account);
    NestedGroups(p);
    RoutesAgree(db, q, jq, account);
  }

  lemma NestedGroups(p: AccountPlan)
    requires NestedWhole(p) && p.groups.Some? && p.accountGroups.Some?
    ensures Whole(p.groups.value) && WholeJoin(p.accountGroups.value)
  {
  }

  lemma RoutesAgree(db: Store, q: Settings<GroupRow>, jq: JoinPlan, account: int)
    requires Keyed(db) && Whole(q) && WholeJoin(jq) && jq.base.predicates == [] && jq.group.Some? &&
            jq.group.value.predicates == q.predicates
    ensures var direct, detour := GroupIDs(LookupGroups(db, q, account)), Reached(LookupJoins(db, jq, account));
            && (forall id :: id in direct <==> id in detour)
            && (UniquePairs(db.accountGroups(jq.base.order)) ==> multiset(direct) == multiset(detour))
  {
    hide Keyed, Whole, WholeJoin, LookupGroups, LookupJoins, Reached, Route;
    var direct, detour := GroupIDs(LookupGroups(db, q, account)), Reached(LookupJoins(db, jq, account));
    forall id
      ensures id in direct <==> id in detour
    {
      DirectRoute(db, q, account, id);
      JoinRoute(db, jq, account, id);
    }
    if UniquePairs(db.accountGroups(jq.base.order)) {
      DirectRoute(db, q, account, 0);
      UniqueRows(db, jq, account);
      JoinRouteOnce(db, jq, account);
      SameCounts(direct, detour);
    }
  }

  lemma UniqueRows(db: Store, jq: JoinPlan, account: int)
    requires WholeJoin(jq) && UniquePairs(db.accountGroups(jq.base.order))
    ensures UniquePairs(Exec(db.accountGroups, PushJoin(jq, [account]).base))
  {
    SelectUnique(PushJoin(jq, [account]).base.predicates, db.accountGroups(jq.base.order));
  }

  lemma SameCounts(a: seq<int>, b: seq<int>)
    requires Distinct(a) && Distinct(b) && forall x :: x in a <==> x in b
    ensures multiset(a) == multiset(b)
  {
    forall x ensures multiset(a)[x] == multiset(b)[x] {
      DistinctCount(a, x);
      DistinctCount(b, x);
    }
  }
}
