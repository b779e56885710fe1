/**
 Laws about running a query: running it again, after success or failure, changes no answer, and selecting fields
 changes no edge.
 */
module RunLaws {
  import opened Prelude
  import opened HashJoin
  import opened QueryPlans
  import opened EagerLaws

  // ---------- Running a builder again ----------

  /** No query of the plan loads groups through the M2M edge, whose join callback must not be pushed twice. */
  predicate NoGroups(p: AccountPlan) {
    && p.groups.None?
    && (p.parent.Some? ==> NoGroups(p.parent.value))
    && (p.children.Some? ==> NoGroups(p.children.value))
  }

  lemma {:induction false} SelectTwice<R(!new)>(ps: seq<Predicate<R>>, p: Predicate<R>, rows: seq<R>)
    ensures Select(ps + [p] + [p], rows) == Select(ps + [p], rows)
  {
    if rows != [] {
      SelectTwice(ps, p, rows[..|rows| - 1]);
      PassesPush(ps + [p], p, rows[|rows| - 1]);
      PassesPush(ps, p, rows[|rows| - 1]);
    }
  }

  lemma NoGroupsLeft(p: AccountPlan, p': AccountPlan)
    requires NoGroups(p) && p'.groups.Some? == p.groups.Some?
    ensures p'.groups == p.groups == None
  {
  }

  lemma ExecTwice<R(!new)>(table: Table<R>, q: Settings<R>, p: Predicate<R>)
    ensures Exec(table, Push(Push(q, p), p)) == Exec(table, Push(q, p))
  {
    SelectTwice(q.predicates, p, table(q.order));
  }

  lemma BatchOwnBase(db: Store, p: AccountPlan, p': AccountPlan, rows: seq<AccountRow>)
    requires p' == p.(base := p'.base)
    ensures Batch(db, p', rows) == Batch(db, p, rows)
  {
    forall i | 0 <= i < |rows|
      ensures Batch(db, p', rows)[i] == Batch(db, p, rows)[i]
    {
      assert DecodeAll(p', rows) == DecodeAll(p, rows);
      assert BatchTree(db, p', rows, i) == BatchTree(db, p, rows, i);
    }
  }

  /** A run leaves a plan's own settings and its set of edges alone. */
  lemma AfterKeeps(db: Store, p: AccountPlan)
    ensures var p' := AfterAll(db, p);
            && p'.base == p.base && p'.fields == p.fields && LoadedTypes(p') == LoadedTypes(p)
            && forall rows :: DecodeAll(p', rows) == DecodeAll(p, rows)
  {
    var es := DecodeAll(p, Exec(db.accounts, p.base));
    var p' := AfterAll(db, p);
    assert p' == p || p' == AfterEdges(db, p, es);
    assert AfterParent(db, p, es).Some? <==> p.parent.Some?;
    assert AfterChildren(db, p, es).Some? <==> p.children.Some?;
    assert LoadedTypes(p') == LoadedTypes(p);
    forall rows ensures DecodeAll(p', rows) == DecodeAll(p, rows) {
      assert PlanColumns(p') == PlanColumns(p);
    }
  }

  lemma RerunProxy(db: Store, p: AccountPlan, p': AccountPlan, es: seq<AccountFields>, i: nat)
    requires i < |es| && (p'.proxy == p.proxy || p'.proxy == AfterProxy(p, es))
    ensures EdgeProxy(db, p', es, i) == EdgeProxy(db, p, es, i)
  {
    if p.proxy.Some? {
      ExecTwice(db.proxies, p.proxy.value, InValues(ProxyId, FirstUse(ProxyKeys(es))));
    }
  }

  lemma RerunJoinTrees(db: Store, q: JoinPlan, rows: seq<JoinRow>)
    requires rows == Exec(db.accountGroups, q.base)
    ensures JoinTrees(db, AfterJoinAll(db, q), rows) == JoinTrees(db, q, rows)
  {
    if rows != [] && q.group.Some? {
      var q' := AfterJoinAll(db, q);
      assert DecodeJoins(q', rows) == DecodeJoins(q, rows);
      ExecTwice(db.groups, q.group.value, InValues(GroupId, FirstUse(JoinGroupKeys(DecodeJoins(q, rows)))));
    }
  }

  lemma RerunJoins(db: Store, q: JoinPlan, ids: seq<int>, id: int)
    ensures BatchJoins(db, AfterJoinAll(db, PushJoin(q, ids)), ids, id) == BatchJoins(db, q, ids, id)
  {
    var q1 := PushJoin(q, ids);
    var q2 := PushJoin(AfterJoinAll(db, q1), ids);
    var rows := Exec(db.accountGroups, q1.base);
    ExecTwice(db.accountGroups, q.base, InValues(JoinAccountColumn, ids));
    assert q2 == AfterJoinAll(db, q1).(base := q2.base);
    assert JoinTrees(db, q2, rows) == JoinTrees(db, AfterJoinAll(db, q1), rows);
    assert DecodeJoins(q2, rows) == DecodeJoins(q1, rows);
    RerunJoinTrees(db, q1, rows);
  }

  lemma {:induction false} RerunParent(db: Store, q: AccountPlan, fks: seq<Option<int>>, fk: Option<int>)
    requires NoGroups(q)
    ensures BatchParent(db, AfterAll(db, PushParent(q, fks)), fks, fk) == BatchParent(db, q, fks, fk)
    decreases Depth(q), 2
  {
    hide Batch, Exec;
    var q1 := PushParent(q, fks);
    var q2 := PushParent(AfterAll(db, q1), fks);
    var nb := Exec(db.accounts, q1.base);
    AfterKeeps(db, q1);
    ExecTwice(db.accounts, q.base, InValues(AccountId, FirstUse(fks)));
    BatchOwnBase(db, AfterAll(db, q1), q2, nb);
    Rerun(db, q1);
  }

  lemma {:induction false} RerunChildren(db: Store, q: AccountPlan, ids: seq<int>, id: int)
    requires NoGroups(q)
    ensures BatchChildren(db, AfterAll(db, PushChildren(q, ids)), ids, id) == BatchChildren(db, q, ids, id)
    decreases Depth(q), 2
  {
    hide Batch, Exec, Part;
    var q1 := PushChildren(q, ids);
    var q2 := PushChildren(AfterAll(db, q1), ids);
    var nb := Exec(db.accounts, q1.base);
    AfterKeeps(db, q1);
    ExecTwice(db.accounts, q.base, InValues(ParentColumn, ids));
    assert q2 == AfterAll(db, q1).(base := q2.base);
    BatchOwnBase(db, AfterAll(db, q1), q2, nb);
    assert DecodeAll(q2, nb) == DecodeAll(q1, nb);
    Rerun(db, q1);
  }

  lemma {:induction false} RerunParentEdge(db: Store, p: AccountPlan, p': AccountPlan, es: seq<AccountFields>, i: nat)
    requires NoGroups(p) && i < |es| && (p'.parent == p.parent || p'.parent == AfterParent(db, p, es))
    ensures EdgeParent(db, p', es, i) == EdgeParent(db, p, es, i)
    decreases Depth(p), 0
  {
    hide Batch, Exec, FirstUse;
    if p.parent.Some? && FirstUse(ParentKeys(es)) != [] {
      RerunParent(db, p.parent.value, ParentKeys(es), es[i].parentAccountId);
    }
  }

  lemma {:induction false} RerunChildrenEdge(db: Store, p: AccountPlan, p': AccountPlan, es: seq<AccountFields>, i: nat)
    requires NoGroups(p) && i < |es| && (p'.children == p.children || p'.children == AfterChildren(db, p, es))
    ensures EdgeChildren(db, p', es, i) == EdgeChildren(db, p, es, i)
    decreases Depth(p), 0
  {
    if p.children.Some? {
      RerunChildren(db, p.children.value, IDs(es), es[i].id);
    }
  }

  lemma RerunJoinsEdge(db: Store, p: AccountPlan, p': AccountPlan, es: seq<AccountFields>, i: nat)
    requires i < |es| && (p'.accountGroups == p.accountGroups || p'.accountGroups == AfterJoins(db, p, es))
    ensures EdgeJoins(db, p', es, i) == EdgeJoins(db, p, es, i)
  {
    if p.accountGroups.Some? {
      RerunJoins(db, p.accountGroups.value, IDs(es), es[i].id);
    }
  }

  /** A run leaves each edge as it was, or with what was pushed into it. */
  lemma AfterEach(db: Store, p: AccountPlan)
    ensures var es := DecodeAll(p, Exec(db.accounts, p.base));
            var p' := AfterAll(db, p);
            && p'.groups.Some? == p.groups.Some?
            && (p'.proxy == p.proxy || p'.proxy == AfterProxy(p, es))
            && (p'.parent == p.parent || p'.parent == AfterParent(db, p, es))
            && (p'.children == p.children || p'.children == AfterChildren(db, p, es))
            && (p'.accountGroups == p.accountGroups || p'.accountGroups == AfterJoins(db, p, es))
  {
    hide Exec, AfterProxy, AfterParent, AfterChildren, AfterJoins, ParentFails, ChildrenFail;
  }

  /** The second run of a builder selects the same rows and gives them the same trees. */
  lemma {:induction false} Rerun(db: Store, p: AccountPlan)
    requires NoGroups(p)
    ensures var rows := Exec(db.accounts, p.base); Batch(db, AfterAll(db, p), rows) == Batch(db, p, rows)
    decreases Depth(p), 1
  {
    hide Exec, EdgeProxy, EdgeParent, EdgeChildren, EdgeJoins, AfterAll, AfterProxy, AfterParent, AfterChildren,
         AfterJoins;
    var rows := Exec(db.accounts, p.base);
    var es := DecodeAll(p, rows);
    var p' := AfterAll(db, p);
    AfterKeeps(db, p);
    AfterEach(db, p);
    NoGroupsLeft(p, p');
    forall i | 0 <= i < |rows|
      ensures Batch(db, p', rows)[i] == Batch(db, p, rows)[i]
    {
      RerunProxy(db, p, p', es, i);
      RerunParentEdge(db, p, p', es, i);
      RerunChildrenEdge(db, p, p', es, i);
      RerunJoinsEdge(db, p, p', es, i);
      assert BatchTree(db, p', rows, i) == BatchTree(db, p, rows, i);
    }
  }

  // ---------- Re-running does not start to fail ----------

  lemma FailsSameRows(db: Store, p: AccountPlan, p': AccountPlan)
    requires p' == p.(base := p'.base) && Exec(db.accounts, p'.base) == Exec(db.accounts, p.base)
    ensures AllFails(db, p') <==> AllFails(db, p)
  {
    var rows := Exec(db.accounts, p.base);
    assert DecodeAll(p', rows) == DecodeAll(p, rows);
  }

  lemma {:induction false} RerunParentFails(db: Store, p: AccountPlan, p': AccountPlan, es: seq<AccountFields>)
    requires NoGroups(p) && p'.parent == AfterParent(db, p, es)
    ensures ParentFails(db, p', es) <==> ParentFails(db, p, es)
    decreases Depth(p), 0
  {
    var fks := ParentKeys(es);
    if p.parent.Some? && FirstUse(fks) != [] {
      var q1 := PushParent(p.parent.value, fks);
      AfterKeeps(db, q1);
      ExecTwice(db.accounts, p.parent.value.base, InValues(AccountId, FirstUse(fks)));
      FailsSameRows(db, AfterAll(db, q1), PushParent(AfterAll(db, q1), fks));
      RerunFails(db, q1);
    }
  }

  lemma {:induction false} RerunChildrenFail(db: Store, p: AccountPlan, p': AccountPlan, es: seq<AccountFields>)
    requires NoGroups(p) && p'.children == AfterChildren(db, p, es)
    ensures ChildrenFail(db, p', es) <==> ChildrenFail(db, p, es)
    decreases Depth(p), 0
  {
    var ids := IDs(es);
    if p.children.Some? {
      var q1 := PushChildren(p.children.value, ids);
      var q2 := PushChildren(AfterAll(db, q1), ids);
      AfterKeeps(db, q1);
      ExecTwice(db.accounts, p.children.value.base, InValues(ParentColumn, ids));
      assert q2 == AfterAll(db, q1).(base := q2.base);
      FailsSameRows(db, AfterAll(db, q1), q2);
      RerunFails(db, q1);
    }
  }

  lemma RerunJoinsFail(db: Store, p: AccountPlan, p': AccountPlan, es: seq<AccountFields>)
    requires p'.accountGroups == AfterJoins(db, p, es)
    ensures JoinsFail(p', es) <==> JoinsFail(p, es)
  {
    hide Exec;
    if p.accountGroups.Some? {
      assert AfterJoins(db, p, es).value.fields == PushJoin(p.accountGroups.value, IDs(es)).fields;
    }
  }

  /** Whether the first run succeeds or fails, the second does the same. */
  lemma {:induction false} RerunFails(db: Store, p: AccountPlan)
    requires NoGroups(p)
    ensures AllFails(db, AfterAll(db, p)) <==> AllFails(db, p)
    decreases Depth(p), 1
  {
    hide Exec, AfterProxy, AfterParent, AfterChildren, AfterJoins, ParentFails, ChildrenFail, JoinsFail;
    var rows := Exec(db.accounts, p.base);
    var es := DecodeAll(p, rows);
    var p' := AfterAll(db, p);
    AfterKeeps(db, p);
    if ValidFields(p.fields, ACCOUNT_COLUMNS) && rows != [] {
      RerunParentFails(db, p, p', es);
      if !ParentFails(db, p, es) {
        RerunChildrenFail(db, p, p', es);
        if !ChildrenFail(db, p, es) {
          RerunJoinsFail(db, p, p', es);
        }
      }
    }
  }

  // ---------- Any number of runs ----------

  function Runs(db: Store, p: AccountPlan, n: nat): AccountPlan {
    if n == 0 then p else AfterAll(db, Runs(db, p, n - 1))
  }

  lemma {:induction false} NoGroupsFirstRun(p: AccountPlan)
    requires NoGroups(p)
    ensures FirstRun(p)
  {
    if p.parent.Some? {
      NoGroupsFirstRun(p.parent.value);
    }
    if p.children.Some? {
      NoGroupsFirstRun(p.children.value);
    }
  }

  lemma {:induction false} AfterNoGroups(db: Store, p: AccountPlan)
    requires NoGroups(p)
    ensures NoGroups(AfterAll(db, p))
    decreases Depth(p)
  {
    var rows := Exec(db.accounts, p.base);
    var es := DecodeAll(p, rows);
    if rows != [] && p.parent.Some? && FirstUse(ParentKeys(es)) != [] {
      AfterNoGroups(db, PushParent(p.parent.value, ParentKeys(es)));
    }
    if rows != [] && p.children.Some? {
      AfterNoGroups(db, PushChildren(p.children.value, IDs(es)));
    }
    assert AfterParent(db, p, es).Some? ==> p.parent.Some?;
    assert AfterChildren(db, p, es).Some? ==> p.children.Some?;
  }

  /**
   Each run pushes more conditions and fields into the sub-queries, and yet every run returns what the first one does.
   */
  lemma {:induction false} RunsAgree(db: Store, p: AccountPlan, n: nat)
    requires NoGroups(p)
    ensures var p' := Runs(db, p, n);
            && NoGroups(p') && FirstRun(p') && p'.base == p.base
            && (AllFails(db, p') <==> AllFails(db, p))
            && var rows := Exec(db.accounts, p.base); Batch(db, p', rows) == Batch(db, p, rows)
  {
    hide AfterAll, AllFails, Batch, Exec, NoGroups, FirstRun;
    if n == 0 {
      NoGroupsFirstRun(p);
    } else {
      var p' := Runs(db, p, n - 1);
      RunsAgree(db, p, n - 1);
      AfterNoGroups(db, p');
      NoGroupsFirstRun(AfterAll(db, p'));
      AfterKeeps(db, p');
      Rerun(db, p');
      RerunFails(db, p');
    }
  }

  // ---------- Projection ----------

  /** A loaded tree without its scalar columns: the nodes' IDs and edges. */
  datatype Skeleton = Skeleton(id: int, loaded: Loaded, groups: seq<GroupRow>, proxy: Option<ProxyRow>,
                               parent: Option<Skeleton>, children: seq<Skeleton>, joins: seq<Option<GroupRow>>)

  function Bones(t: AccountTree): Skeleton {
    Skeleton(t.entity.id, t.loaded, t.groups, t.proxy,
             if t.parent.None? then None else Some(Bones(t.parent.value)),
             seq(|t.children|, i requires 0 <= i < |t.children| => Bones(t.children[i])),
             seq(|t.accountGroups|, i requires 0 <= i < |t.accountGroups| => t.accountGroups[i].group))
  }

  function AllBones(ts: seq<AccountTree>): (bs: seq<Skeleton>)
    ensures |bs| == |ts| && forall i :: 0 <= i < |ts| ==> bs[i] == Bones(ts[i])
  {
    seq(|ts|, i requires 0 <= i < |ts| => Bones(ts[i]))
  }

  ghost predicate SameButJoinFields(q: JoinPlan, q': JoinPlan) {
    q'.base == q.base && q'.group == q.group
  }

  /** Two plans that differ at most in the fields they select, at any level. */
  ghost predicate SameButFields(p: AccountPlan, p': AccountPlan) {
    && p'.base == p.base && p'.groups == p.groups && p'.proxy == p.proxy
    && p.parent.Some? == p'.parent.Some? && (p.parent.Some? ==> SameButFields(p.parent.value, p'.parent.value))
    && p.children.Some? == p'.children.Some? &&
        (p.children.Some? ==> SameButFields(p.children.value, p'.children.value))
    && p.accountGroups.Some? == p'.accountGroups.Some?
    && (p.accountGroups.Some? ==> SameButJoinFields(p.accountGroups.value, p'.accountGroups.value))
  }

  ghost predicate IDOnce(cols: seq<string>) {
    cols != [] && cols[0] == ID && forall k :: 1 <= k < |cols| ==> cols[k] != ID
  }

  lemma AllColumnsIDOnce()
    ensures IDOnce(ACCOUNT_COLUMNS)
  {
    assert forall k :: 1 <= k < |ACCOUNT_COLUMNS| ==> |ACCOUNT_COLUMNS[k]| > 2;
  }

  lemma AppendKey(cols: seq<string>, f: string)
    requires IDOnce(cols) && |f| > 2
    ensures IDOnce(AppendOnce(cols, f))
    ensures forall c :: c in AppendOnce(cols, f) <==> c in cols || c == f
  {
  }

  lemma StartWithID(fields: seq<string>)
    ensures IDOnce([ID] + Without(fields, ID))
    ensures forall c :: c in [ID] + Without(fields, ID) <==> c == ID || c in fields
  {
    var rest := Without(fields, ID);
    var cols := [ID] + rest;
    assert forall k :: 1 <= k < |cols| ==> cols[k] == rest[k - 1] && rest[k - 1] in rest;
  }

  /**
   querySpec's columns: the ID first and only there, every selected field, every foreign key an edge needs, nothing
   else.
   */
  lemma ColumnsExact(fields: seq<string>, withProxy: bool, withParent: bool)
    ensures IDOnce(Columns(fields, withProxy, withParent))
    ensures fields == [] ==> Columns(fields, withProxy, withParent) == ACCOUNT_COLUMNS
    ensures fields != [] ==> forall c :: c in Columns(fields, withProxy, withParent) <==>
              c == ID || c in fields || (withProxy && c == PROXY_ID) || (withParent && c == PARENT_ACCOUNT_ID)
  {
    hide AppendOnce, Without, IDOnce;
    if fields == [] {
      AllColumnsIDOnce();
    } else {
      var cols := [ID] + Without(fields, ID);
      StartWithID(fields);
      AppendKey(cols, PROXY_ID);
      AppendKey(if withProxy then AppendOnce(cols, PROXY_ID) else cols, PARENT_ACCOUNT_ID);
    }
  }

  lemma SameDecodedKeys(p: AccountPlan, p': AccountPlan, rows: seq<AccountRow>)
    requires SameButFields(p, p')
    ensures var es, es' := DecodeAll(p, rows), DecodeAll(p', rows);
            && IDs(es) == IDs(es')
            && (p.proxy.Some? ==> ProxyKeys(es) == ProxyKeys(es'))
            && (p.parent.Some? ==> ParentKeys(es) == ParentKeys(es'))
  {
    DecodedKeys(p, rows);
    DecodedKeys(p', rows);
  }

  lemma ProjectParent(db: Store, q: AccountPlan, q': AccountPlan, fks: seq<Option<int>>, fk: Option<int>)
    requires SameButFields(q, q')
    requires var nb := Exec(db.accounts, PushParent(q, fks).base);
             AllBones(Batch(db, PushParent(q, fks), nb)) == AllBones(Batch(db, PushParent(q', fks), nb))
    ensures var a, b := BatchParent(db, q, fks, fk), BatchParent(db, q', fks, fk);
            a.Some? == b.Some? && (a.Some? ==> Bones(a.value) == Bones(b.value))
  {
    hide Batch, Exec, Bones, Latest, Last;
    var q1, q2 := PushParent(q, fks), PushParent(q', fks);
    var nb := Exec(db.accounts, q1.base);
    SameDecodedKeys(q1, q2, nb);
    var keys, ts, us := IDs(DecodeAll(q1, nb)), Batch(db, q1, nb), Batch(db, q2, nb);
    LatestIs(keys, ts, fk);
    LatestIs(keys, us, fk);
    var j := Last(keys, fk);
    if j >= 0 {
      assert AllBones(ts)[j] == AllBones(us)[j];
    }
  }

  lemma PartOfBones(ts: seq<AccountTree>, us: seq<AccountTree>, fks: seq<Option<int>>, id: int)
    requires |fks| == |ts| && AllBones(ts) == AllBones(us)
    ensures AllBones(Part(ts, fks, id)) == AllBones(Part(us, fks, id))
  {
    var ps := Positions(fks, id);
    forall m | 0 <= m < |ps|
      ensures Bones(Part(ts, fks, id)[m]) == Bones(Part(us, fks, id)[m])
    {
      assert AllBones(ts)[ps[m]] == AllBones(us)[ps[m]];
    }
  }

  lemma SameBase(q: AccountPlan, q': AccountPlan)
    requires SameButFields(q, q')
    ensures q.base == q'.base
  {
  }

  lemma ProjectChildren(db: Store, q: AccountPlan, q': AccountPlan, ids: seq<int>, id: int)
    requires SameButFields(q, q')
    requires var nb := Exec(db.accounts, PushChildren(q, ids).base);
             AllBones(Batch(db, PushChildren(q, ids), nb)) == AllBones(Batch(db, PushChildren(q', ids), nb))
    ensures AllBones(BatchChildren(db, q, ids, id)) == AllBones(BatchChildren(db, q', ids, id))
  {
    hide Batch, Exec, Bones, Part, Decode, PlanColumns, AllBones, SameButFields;
    var q1, q2 := PushChildren(q, ids), PushChildren(q', ids);
    assert q2.base == q1.base by { SameBase(q, q'); }
    var nb := Exec(db.accounts, q1.base);
    DecodedKeys(q1, nb);
    DecodedKeys(q2, nb);
    PartOfBones(Batch(db, q1, nb), Batch(db, q2, nb), Keys(ParentColumn, nb), id);
  }

  function JoinBones(ts: seq<JoinTree>): seq<Option<GroupRow>> {
    seq(|ts|, i requires 0 <= i < |ts| => ts[i].group)
  }

  lemma ProjectJoins(db: Store, q: JoinPlan, q': JoinPlan, ids: seq<int>, id: int)
    requires SameButJoinFields(q, q')
    ensures JoinBones(BatchJoins(db, q, ids, id)) == JoinBones(BatchJoins(db, q', ids, id))
  {
    var q1, q2 := PushJoin(q, ids), PushJoin(q', ids);
    var nb := Exec(db.accountGroups, q1.base);
    JoinColumnsHoldKeys(q, ids);
    JoinColumnsHoldKeys(q', ids);
    assert JoinAccountKeys(DecodeJoins(q1, nb)) == JoinAccountKeys(DecodeJoins(q2, nb));
    if q.group.Some? {
      assert JoinGroupKeys(DecodeJoins(q1, nb)) == JoinGroupKeys(DecodeJoins(q2, nb));
    }
    assert forall i :: 0 <= i < |nb| ==> JoinTrees(db, q1, nb)[i].group == JoinTrees(db, q2, nb)[i].group;
  }

  lemma {:induction false} ProjectParentEdge(db: Store, p: AccountPlan, p': AccountPlan, es: seq<AccountFields>,
          es': seq<AccountFields>, i: nat)
    requires SameButFields(p, p') && i < |es| == |es'|
    requires p.parent.Some? ==> ParentKeys(es) == ParentKeys(es')
    ensures var a, b := EdgeParent(db, p, es, i), EdgeParent(db, p', es', i);
            a.Some? == b.Some? && (a.Some? ==> Bones(a.value) == Bones(b.value))
    decreases Depth(p), 0
  {
    hide Batch, Exec;
    if p.parent.Some? {
      var fks := ParentKeys(es);
      assert es[i].parentAccountId == fks[i] && es'[i].parentAccountId == ParentKeys(es')[i];
      SelectingFieldsKeepsEdges(db, PushParent(p.parent.value, fks), PushParent(p'.parent.value, fks),
                                Exec(db.accounts, PushParent(p.parent.value, fks).base));
      ProjectParent(db, p.parent.value, p'.parent.value, fks, fks[i]);
    }
  }

  lemma {:induction false} ProjectChildrenEdge(db: Store, p: AccountPlan, p': AccountPlan, es: seq<AccountFields>,
          es': seq<AccountFields>, i: nat)
    requires SameButFields(p, p') && i < |es| == |es'| && IDs(es) == IDs(es')
    ensures AllBones(EdgeChildren(db, p, es, i)) == AllBones(EdgeChildren(db, p', es', i))
    decreases Depth(p), 0
  {
    hide Batch, Exec;
    if p.children.Some? {
      var ids := IDs(es);
      assert es[i].id == ids[i] && es'[i].id == IDs(es')[i];
      SelectingFieldsKeepsEdges(db, PushChildren(p.children.value, ids), PushChildren(p'.children.value, ids),
                                Exec(db.accounts, PushChildren(p.children.value, ids).base));
      ProjectChildren(db, p.children.value, p'.children.value, ids, ids[i]);
    }
  }

  lemma ProjectJoinsEdge(db: Store, p: AccountPlan, p': AccountPlan, es: seq<AccountFields>, es': seq<AccountFields>,
          i: nat)
    requires SameButFields(p, p') && i < |es| == |es'| && IDs(es) == IDs(es')
    ensures JoinBones(EdgeJoins(db, p, es, i)) == JoinBones(EdgeJoins(db, p', es', i))
  {
    hide BatchJoins;
    if p.accountGroups.Some? {
      assert es[i].id == IDs(es)[i] && es'[i].id == IDs(es')[i];
      ProjectJoins(db, p.accountGroups.value, p'.accountGroups.value, IDs(es), es[i].id);
    }
  }

  function ParentBones(t: Option<AccountTree>): Option<Skeleton> {
    if t.None? then None else Some(Bones(t.value))
  }

  lemma BonesOfTree(db: Store, p: AccountPlan, rows: seq<AccountRow>, i: nat)
    requires i < |rows|
    ensures var es := DecodeAll(p, rows);
            Bones(BatchTree(db, p, rows, i)) ==
            Skeleton(es[i].id, LoadedTypes(p), EdgeGroups(db, p, es, i), EdgeProxy(db, p, es, i),
                     ParentBones(EdgeParent(db, p, es, i)), AllBones(EdgeChildren(db, p, es, i)),
                     JoinBones(EdgeJoins(db, p, es, i)))
  {
    hide EdgeGroups, EdgeProxy, EdgeParent, EdgeChildren, EdgeJoins, DecodeAll, Decode, PlanColumns;
    var t := BatchTree(db, p, rows, i);
    assert Bones(t).children == AllBones(t.children) && Bones(t).joins == JoinBones(t.accountGroups);
  }

  lemma ProjectLeaves(db: Store, p: AccountPlan, p': AccountPlan, rows: seq<AccountRow>, i: nat)
    requires SameButFields(p, p') && i < |rows|
    ensures var es, es' := DecodeAll(p, rows), DecodeAll(p', rows);
            && LoadedTypes(p) == LoadedTypes(p') && es[i].id == es'[i].id
            && EdgeGroups(db, p, es, i) == EdgeGroups(db, p', es', i)
            && EdgeProxy(db, p, es, i) == EdgeProxy(db, p', es', i)
  {
    hide GroupsOf, ExecPairs, BatchProxy, DecodeAll, Decode, PlanColumns;
    var es, es' := DecodeAll(p, rows), DecodeAll(p', rows);
    SameDecodedKeys(p, p', rows);
    assert es[i].id == IDs(es)[i] == IDs(es')[i] == es'[i].id;
    assert p.proxy.Some? ==> es[i].proxyId == ProxyKeys(es)[i] == ProxyKeys(es')[i] == es'[i].proxyId;
  }

  lemma {:induction false} ProjectTree(db: Store, p: AccountPlan, p': AccountPlan, rows: seq<AccountRow>, i: nat)
    requires SameButFields(p, p') && i < |rows|
    ensures Bones(BatchTree(db, p, rows, i)) == Bones(BatchTree(db, p', rows, i))
    decreases Depth(p), 1
  {
    hide EdgeGroups, EdgeProxy, EdgeParent, EdgeChildren, EdgeJoins, DecodeAll, Decode, PlanColumns, Bones, BatchTree,
         SameButFields, JoinBones, AllBones;
    var es, es' := DecodeAll(p, rows), DecodeAll(p', rows);
    SameDecodedKeys(p, p', rows);
    BonesOfTree(db, p, rows, i);
    BonesOfTree(db, p', rows, i);
    ProjectLeaves(db, p, p', rows, i);
    ProjectParentEdge(db, p, p', es, es', i);
    ProjectChildrenEdge(db, p, p', es, es', i);
    ProjectJoinsEdge(db, p, p', es, es', i);
  }

  /** Whatever fields the queries of a plan select, at whatever level, the loaded edges are the same. */
  lemma {:induction false} SelectingFieldsKeepsEdges(db: Store, p: AccountPlan, p': AccountPlan, rows: seq<AccountRow>)
    requires SameButFields(p, p')
    ensures AllBones(Batch(db, p, rows)) == AllBones(Batch(db, p', rows))
    decreases Depth(p), 2
  {
    forall i | 0 <= i < |rows|
      ensures Bones(Batch(db, p, rows)[i]) == Bones(Batch(db, p', rows)[i])
    {
      ProjectTree(db, p, p', rows, i);
    }
  }
}
