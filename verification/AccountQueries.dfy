/**
 The query builders, as objects: the calls that configure them, cloning, running a query, and the edge loaders.
 A run mutates the builders below the one it starts from; `plan` follows what they have become.
 */
module AccountQueries {
  import opened Prelude
  import opened HashJoin
  import opened QueryPlans
  import opened Entities
  import opened PlanEdits

  class QueryContext {
    var fields: seq<string>
    var limit: Option<nat>
    var offset: Option<nat>

    constructor ()
      ensures fields == [] && limit == None && offset == None
    {
      fields, limit, offset := [], None, None;
    }

    method AppendFieldOnce(f: string)
      modifies this`fields
      ensures fields == AppendOnce(old(fields), f)
    {
      if f !in fields {
        fields := fields + [f];
      }
    }

    method Clone() returns (c: QueryContext)
      ensures fresh(c) && c.fields == fields && c.limit == limit && c.offset == offset
    {
      c := new QueryContext();
      c.fields, c.limit, c.offset := fields, limit, offset;
    }
  }

  // ---------- The query of the join entity ----------

  class AccountGroupQuery {
    var ctx: QueryContext
    var predicates: seq<Predicate<JoinRow>>
    var order: seq<OrderTerm>
    var modifiers: seq<Modifier>
    var withGroup: Option<Settings<GroupRow>>
    ghost var plan: JoinPlan
    ghost var Repr: set<object>

    ghost predicate Valid()
      reads this, ctx
    {
      && Repr == {this, ctx}
      && plan == JoinPlan(Settings(predicates, order, ctx.limit, ctx.offset, modifiers), ctx.fields, withGroup)
    }

    constructor ()
      ensures Valid() && fresh(Repr) && plan == JoinPlan(Settings([], [], None, None, []), [], None)
    {
      ctx := new QueryContext();
      predicates, order, modifiers, withGroup := [], [], [], None;
      plan := JoinPlan(Settings([], [], None, None, []), [], None);
      new;
      Repr := {this, ctx};
    }

    /** One call on the builder. */
    method Call(op: JoinOp)
      requires Valid()
      modifies this, ctx
      ensures Valid() && Repr == old(Repr) && ctx == old(ctx) && plan == JoinEdit(op, old(plan))
    {
      match op {
        case Filter(ps) => predicates := predicates + ps;
        case Limit(n) => ctx.limit := Some(n);
        case Offset(n) => ctx.offset := Some(n);
        case Order(terms) => order := order + terms;
        case Select(fields) => ctx.fields := ctx.fields + fields;
        case Lock(m) => modifiers := modifiers + [m];
        case WithGroup(q) => withGroup := Some(q);
      }
      plan := JoinEdit(op, plan);
    }

    method CallAll(ops: seq<JoinOp>)
      requires Valid()
      modifies this, ctx
      ensures Valid() && Repr == old(Repr) && plan == JoinEdits(ops, old(plan))
    {
      hide JoinEdit;
      assert ops[0..] == ops;
      for i := 0 to |ops|
        invariant Valid() && Repr == old(Repr) && ctx == old(ctx) &&
                JoinEdits(ops[i..], plan) == JoinEdits(ops, old(plan))
      {
        assert ops[i..][1..] == ops[i + 1..];
        Call(ops[i]);
      }
    }

    ghost static function ReprOf(q: AccountGroupQuery?): set<object>
      reads q
    {
      if q == null then {} else q.Repr
    }

    static method CloneOf(q: AccountGroupQuery?, ghost used: set<object>)
            returns (c: AccountGroupQuery?, ghost R: set<object>)
      requires q != null ==> q.Valid()
      ensures (c == null <==> q == null) && R == ReprOf(c) && fresh(R) && R !! used
      ensures q != null ==> c.Valid() && c.plan == UnlockedJoin(q.plan)
    {
      c, R := null, {};
      if q != null {
        c := q.Clone();
        R := c.Repr;
      }
    }

    /** The modifiers are not copied. */
    method Clone() returns (c: AccountGroupQuery)
      requires Valid()
      ensures fresh(c.Repr) && c.Valid() && c.plan == UnlockedJoin(plan)
    {
      c := new AccountGroupQuery();
      c.ctx := ctx.Clone();
      c.order, c.predicates, c.withGroup := order, predicates, UnlockedOption(withGroup);
      c.Repr := {c, c.ctx};
      c.plan := UnlockedJoin(plan);
    }

    /** What loadAccountGroups does to the builder before it runs it. */
    method PushAccounts(ids: seq<int>)
      requires Valid()
      modifies this`predicates, this`plan, ctx`fields
      ensures Valid() && plan == PushJoin(old(plan), ids)
    {
      if |ctx.fields| > 0 {
        ctx.AppendFieldOnce(ACCOUNT_ID);
      }
      predicates := predicates + [InValues(JoinAccountColumn, ids)];
      plan := PushJoin(plan, ids);
    }

    /** The columns of querySpec; there is no ID column to put in front. */
    method SpecColumns() returns (cols: seq<string>)
      requires Valid()
      ensures cols == JoinColumns(plan)
    {
      if |ctx.fields| == 0 {
        return JOIN_COLUMNS;
      }
      cols := [];
      for i := 0 to |ctx.fields|
        invariant cols == ctx.fields[..i]
      {
        cols := cols + [ctx.fields[i]];
      }
      assert ctx.fields[..|ctx.fields|] == ctx.fields;
      if withGroup.Some? && GROUP_ID !in cols {
        cols := cols + [GROUP_ID];
      }
    }

    /** The rows of the query itself, decoded, one new object each. */
    method QueryNodes(db: Store) returns (nodes: seq<AccountGroup>, ghost sent: nat)
      requires Valid()
      ensures sent == 1
      ensures fresh(nodes) && JoinsScanned(nodes, DecodeJoins(plan, Exec(db.accountGroups, plan.base)))
      ensures forall i :: 0 <= i < |nodes| ==> nodes[i].loadedGroup == plan.group.Some? && nodes[i].Group == None
    {
      hide Exec, DecodeJoin, JOIN_COLUMNS, JoinColumns;
      var cols := SpecColumns();
      var rows := Exec(db.accountGroups, Settings(predicates, order, ctx.limit, ctx.offset, modifiers));
      sent := 1;
      nodes := Scan(cols, rows, withGroup.Some?);
    }

    /** prepareQuery and sqlAll. */
    method All(db: Store) returns (ok: bool, nodes: seq<AccountGroup>, ghost sent: nat)
      requires Valid()
      modifies this`withGroup, this`plan
      ensures Valid()
      ensures sent == SentJoinRun(db, old(plan))
      ensures ok <==> !JoinFails(old(plan))
      ensures ok ==> fresh(nodes)
      ensures plan == AfterJoinAll(db, old(plan))
      ensures ok ==> JoinsScanned(nodes, DecodeJoins(old(plan), Exec(db.accountGroups, old(plan).base)))
      ensures ok ==> JoinsShow(nodes, JoinTrees(db, old(plan), Exec(db.accountGroups, old(plan).base)),
              set n | n in nodes)
    {
      hide Exec, DecodeJoin, DecodeJoins, JOIN_COLUMNS, BatchGroup, JoinsScanned, JoinsShow, JoinTrees;
      nodes := [];
      if exists i :: 0 <= i < |ctx.fields| && ctx.fields[i] !in JOIN_COLUMNS {
        return false, [], 0;
      }
      ghost var q := plan;
      ghost var rows := Exec(db.accountGroups, q.base);
      ghost var es := DecodeJoins(q, rows);
      nodes, sent := QueryNodes(db);
      JoinsScannedLength(nodes, es);
      ok := true;
      if |nodes| > 0 && withGroup.Some? {
        ghost var n;
        var query;
        query, n := LoadGroup(db, withGroup.value, nodes, es);
        sent := sent + n;
        withGroup := Some(query);
        plan := plan.(group := withGroup);
      }
      JoinsLoaded(db, q, rows, nodes);
    }

    static lemma JoinsScannedLength(nodes: seq<AccountGroup>, es: seq<JoinFields>)
      requires JoinsScanned(nodes, es)
      ensures |nodes| == |es|
    {
    }

    static lemma JoinsLoaded(db: Store, q: JoinPlan, rows: seq<JoinRow>, nodes: seq<AccountGroup>)
      requires JoinsScanned(nodes, DecodeJoins(q, rows)) && |nodes| == |rows|
      requires forall i :: 0 <= i < |nodes| ==> nodes[i].loadedGroup == q.group.Some?
      requires q.group.None? ==> forall i :: 0 <= i < |nodes| ==> nodes[i].Group == None
      requires var es := DecodeJoins(q, rows);
               q.group.Some? ==> forall i :: 0 <= i < |nodes| ==>
                 nodes[i].Group == BatchGroup(db, q.group.value, JoinGroupKeys(es), Some(es[i].groupId))
      ensures JoinsShow(nodes, JoinTrees(db, q, rows), set n | n in nodes)
    {
      hide DecodeJoin, BatchGroup, Distinct;
    }

    ghost static predicate JoinsScanned(nodes: seq<AccountGroup>, es: seq<JoinFields>) {
      Distinct(nodes) && |nodes| == |es| && forall i :: 0 <= i < |nodes| ==> nodes[i].entity == es[i]
    }

    /** One entity for each row, without edges yet. */
    static method Scan(cols: seq<string>, rows: seq<JoinRow>, loadedGroup: bool) returns (nodes: seq<AccountGroup>)
      ensures fresh(nodes) && Distinct(nodes) && |nodes| == |rows|
      ensures forall i :: 0 <= i < |nodes| ==>
        nodes[i].entity == DecodeJoin(cols, rows[i]) && nodes[i].loadedGroup == loadedGroup && nodes[i].Group == None
    {
      nodes := [];
      for k := 0 to |rows|
        invariant |nodes| == k && fresh(nodes) && Distinct(nodes)
        invariant forall i :: 0 <= i < k ==>
          nodes[i].entity == DecodeJoin(cols, rows[i]) && nodes[i].loadedGroup == loadedGroup && nodes[i].Group == None
      {
        var n := new AccountGroup(DecodeJoin(cols, rows[k]), loadedGroup);
        nodes := nodes + [n];
      }
    }

    static method LoadGroup(db: Store, query: Settings<GroupRow>, nodes: seq<AccountGroup>, ghost es: seq<JoinFields>)
        returns (query': Settings<GroupRow>, ghost sent: nat)
      requires JoinsScanned(nodes, es) && forall i :: 0 <= i < |nodes| ==> nodes[i].Group == None
      modifies nodes`Group
      ensures query' == if es == [] then query else PushGroup(query, JoinGroupKeys(es))
      ensures sent == if es == [] then 0 else 1
      ensures forall i :: 0 <= i < |nodes| ==>
              nodes[i].Group == BatchGroup(db, query, JoinGroupKeys(es), Some(es[i].groupId))
    {
      query', sent := query, 0;
      var fks := seq(|nodes|, i requires 0 <= i < |nodes| => Some(nodes[i].entity.groupId));
      assert fks == JoinGroupKeys(es);
      var ids, nodeids := CollectKeys(fks);
      if |ids| == 0 {
        AllNull(fks);
        return;
      }
      assert es != [] by { assert FirstUse([]) == []; }
      query' := Push(query, InValues(GroupId, ids));
      var neighbors := Exec(db.groups, query');
      sent := 1;
      GroupsWanted(db, query, fks);
      var _ := DistributeGroup(nodes, fks, nodeids, neighbors);
    }
  }

  // ---------- The account query ----------

  class AccountQuery {
    var ctx: QueryContext
    var predicates: seq<Predicate<AccountRow>>
    var order: seq<OrderTerm>
    var modifiers: seq<Modifier>
    var withGroups: Option<Settings<GroupRow>>
    var withProxy: Option<Settings<ProxyRow>>
    var withParent: AccountQuery?
    var withChildren: AccountQuery?
    var withAccountGroups: AccountGroupQuery?
    ghost var plan: AccountPlan
    ghost var Repr: set<object>

    /** The builders form a tree: no two of them share a sub-builder or a query context. */
    ghost predicate Valid()
      reads this, Repr
      decreases Repr
    {
      && this in Repr && ctx in Repr
      && (withParent != null ==>
          withParent in Repr && withParent.Repr <= Repr && this !in withParent.Repr && ctx !in withParent.Repr &&
          withParent.Valid())
      && (withChildren != null ==>
          withChildren in Repr && withChildren.Repr <= Repr && this !in withChildren.Repr &&
          ctx !in withChildren.Repr && withChildren.Valid())
      && (withAccountGroups != null ==>
          withAccountGroups in Repr && withAccountGroups.ctx in Repr && ctx != withAccountGroups.ctx &&
          withAccountGroups.Valid())
      && (withParent != null && withChildren != null ==> withParent.Repr !! withChildren.Repr)
      && (withParent != null && withAccountGroups != null ==> withParent.Repr !! withAccountGroups.Repr)
      && (withChildren != null && withAccountGroups != null ==> withChildren.Repr !! withAccountGroups.Repr)
      && plan == AccountPlan(Settings(predicates, order, ctx.limit, ctx.offset, modifiers), ctx.fields,
                             withGroups, withProxy,
                             if withParent == null then None else Some(withParent.plan),
                             if withChildren == null then None else Some(withChildren.plan),
                             if withAccountGroups == null then None else Some(withAccountGroups.plan))
    }

    /** Changes elsewhere do not concern a builder. */
    twostate lemma StaysValid()
      requires old(Valid())
      requires forall o :: o in old(Repr) ==> unchanged(o)
      ensures Valid()
    {
    }

    constructor ()
      ensures Valid() && fresh(Repr)
      ensures plan == AccountPlan(Settings([], [], None, None, []), [], None, None, None, None, None)
    {
      ctx := new QueryContext();
      predicates, order, modifiers, withGroups, withProxy := [], [], [], None, None;
      withParent, withChildren, withAccountGroups := null, null, null;
      plan := AccountPlan(Settings([], [], None, None, []), [], None, None, None, None, None);
      new;
      Repr := {this, ctx};
    }

    method Where(ps: seq<Predicate<AccountRow>>)
      requires Valid()
      modifies this`predicates, this`plan
      ensures Valid() && Repr == old(Repr)
      ensures plan == old(plan).(base := old(plan.base).(predicates := old(plan.base.predicates) + ps))
    {
      predicates := predicates + ps;
      plan := plan.(base := plan.base.(predicates := predicates));
    }

    method Limit(limit: nat)
      requires Valid()
      modifies this`plan, ctx`limit
      ensures Valid() && Repr == old(Repr) && plan == Edit(Op.Limit(limit), old(plan))
    {
      ctx.limit := Some(limit);
      plan := plan.(base := plan.base.(limit := Some(limit)));
    }

    method Offset(offset: nat)
      requires Valid()
      modifies this`plan, ctx`offset
      ensures Valid() && Repr == old(Repr) && plan == Edit(Op.Offset(offset), old(plan))
    {
      ctx.offset := Some(offset);
      plan := plan.(base := plan.base.(offset := Some(offset)));
    }

    method Order(terms: seq<OrderTerm>)
      requires Valid()
      modifies this`order, this`plan
      ensures Valid() && Repr == old(Repr) && plan == Edit(Op.Order(terms), old(plan))
    {
      order := order + terms;
      plan := plan.(base := plan.base.(order := order));
    }

    method Select(fields: seq<string>)
      requires Valid()
      modifies this`plan, ctx`fields
      ensures Valid() && Repr == old(Repr) && plan == Edit(Op.Select(fields), old(plan))
    {
      ctx.fields := ctx.fields + fields;
      plan := plan.(fields := ctx.fields);
    }

    /** ForUpdate and ForShare. */
    method Lock(m: Modifier)
      requires Valid()
      modifies this`modifiers, this`plan
      ensures Valid() && Repr == old(Repr) && plan == Edit(Op.Lock(m), old(plan))
    {
      modifiers := modifiers + [m];
      plan := plan.(base := plan.base.(modifiers := modifiers));
    }

    method WithGroups(q: Settings<GroupRow>)
      requires Valid()
      modifies this`withGroups, this`plan
      ensures Valid() && Repr == old(Repr) && plan == Edit(Op.WithGroups(q), old(plan))
    {
      withGroups := Some(q);
      plan := plan.(groups := withGroups);
    }

    method WithProxy(q: Settings<ProxyRow>)
      requires Valid()
      modifies this`withProxy, this`plan
      ensures Valid() && Repr == old(Repr) && plan == Edit(Op.WithProxy(q), old(plan))
    {
      withProxy := Some(q);
      plan := plan.(proxy := withProxy);
    }

    /** A fresh builder after its options. */
    static method Built(options: seq<Op>) returns (query: AccountQuery)
      ensures fresh(query.Repr) && query.Valid() && query.plan == Edits(options, FRESH)
      decreases options, 1
    {
      query := new AccountQuery();
      query.CallAll(options);
    }

    /** Nothing that was there has changed but `this`, which now also has the objects of a new sub-builder. */
    twostate predicate Extended(all: set<object>, new added: set<object>)
      reads this, all
    {
      && unchanged(`ctx, `predicates, `order, `modifiers, `withGroups, `withProxy)
      && all == old(Repr) && Repr == all + added && fresh(added)
      && forall o :: o in all && o != this ==> unchanged(o)
    }

    twostate lemma ParentReplaced()
      requires old(Valid()) && unchanged(`withChildren, `withAccountGroups)
      requires withParent != null && withParent.Valid() && Extended(old(Repr), withParent.Repr)
      requires plan == old(plan).(parent := Some(withParent.plan))
      ensures Valid()
    {
    }

    twostate lemma ChildrenReplaced()
      requires old(Valid()) && unchanged(`withParent, `withAccountGroups)
      requires withChildren != null && withChildren.Valid() && Extended(old(Repr), withChildren.Repr)
      requires plan == old(plan).(children := Some(withChildren.plan))
      ensures Valid()
    {
    }

    twostate lemma JoinsReplaced()
      requires old(Valid()) && unchanged(`withParent, `withChildren)
      requires withAccountGroups != null && withAccountGroups.Valid() && Extended(old(Repr), withAccountGroups.Repr)
      requires plan == old(plan).(accountGroups := Some(withAccountGroups.plan))
      ensures Valid()
    {
    }

    /** The options are calls on a fresh sub-builder, which replaces the one there was. */
    method WithParent(options: seq<Op>)
      requires Valid()
      modifies this`withParent, this`plan, this`Repr
      ensures Valid() && fresh(Repr - old(Repr)) && plan == Edit(Op.WithParent(options), old(plan))
      decreases options, 2
    {
      hide Valid, Edits;
      Parts();
      var query := Built(options);
      withParent := query;
      plan := plan.(parent := Some(query.plan));
      Repr := Repr + query.Repr;
      ParentReplaced();
    }

    method WithChildren(options: seq<Op>)
      requires Valid()
      modifies this`withChildren, this`plan, this`Repr
      ensures Valid() && fresh(Repr - old(Repr)) && plan == Edit(Op.WithChildren(options), old(plan))
      decreases options, 2
    {
      hide Valid, Edits;
      Parts();
      var query := Built(options);
      withChildren := query;
      plan := plan.(children := Some(query.plan));
      Repr := Repr + query.Repr;
      ChildrenReplaced();
    }

    static method BuiltJoin(calls: seq<JoinOp>) returns (query: AccountGroupQuery)
      ensures fresh(query.Repr) && query.Valid() && query.plan == JoinEdits(calls, FRESH_JOIN)
    {
      query := new AccountGroupQuery();
      query.CallAll(calls);
    }

    method WithAccountGroups(calls: seq<JoinOp>)
      requires Valid()
      modifies this`withAccountGroups, this`plan, this`Repr
      ensures Valid() && fresh(Repr - old(Repr)) && plan == Edit(Op.WithAccountGroups(calls), old(plan))
    {
      hide Valid, AccountGroupQuery.Valid, JoinEdits;
      Parts();
      var query := BuiltJoin(calls);
      withAccountGroups := query;
      plan := plan.(accountGroups := Some(query.plan));
      Repr := Repr + query.Repr;
      JoinsReplaced();
    }

    /** One call on the builder. */
    method Call(op: Op)
      requires Valid()
      modifies Repr
      ensures Valid() && fresh(Repr - old(Repr)) && plan == Edit(op, old(plan))
      decreases op, 1
    {
      match op {
        case Filter(ps) => Where(ps);
        case Limit(n) => Limit(n);
        case Offset(n) => Offset(n);
        case Order(terms) => Order(terms);
        case Select(fields) => Select(fields);
        case Lock(m) => Lock(m);
        case WithGroups(q) => WithGroups(q);
        case WithProxy(q) => WithProxy(q);
        case WithParent(options) => WithParent(options);
        case WithChildren(options) => WithChildren(options);
        case WithAccountGroups(calls) => WithAccountGroups(calls);
      }
    }

    method CallAll(ops: seq<Op>)
      requires Valid()
      modifies Repr
      ensures Valid() && fresh(Repr - old(Repr)) && plan == Edits(ops, old(plan))
      decreases ops, 0
    {
      for i := 0 to |ops|
        invariant Valid() && fresh(Repr - old(Repr)) && Edits(ops[i..], plan) == Edits(ops, old(plan))
      {
        assert ops[i..][1..] == ops[i + 1..];
        Call(ops[i]);
      }
    }

    /** A builder put together from parts that share nothing. */
    constructor Of(ctx: QueryContext, predicates: seq<Predicate<AccountRow>>, order: seq<OrderTerm>,
                   withGroups: Option<Settings<GroupRow>>, withProxy: Option<Settings<ProxyRow>>,
                   withParent: AccountQuery?, withChildren: AccountQuery?, withAccountGroups: AccountGroupQuery?,
                   ghost R1: set<object>, ghost R2: set<object>, ghost R3: set<object>)
      requires withParent != null ==> withParent.Valid()
      requires withChildren != null ==> withChildren.Valid()
      requires withAccountGroups != null ==> withAccountGroups.Valid()
      requires R1 == ReprOf(withParent) && R2 == ReprOf(withChildren) &&
              R3 == AccountGroupQuery.ReprOf(withAccountGroups)
      requires R1 !! {ctx} && R2 !! {ctx} + R1 && R3 !! {ctx} + R1 + R2
      ensures Valid() && Repr == {this, ctx} + R1 + R2 + R3
      ensures plan ==
              AccountPlan(Settings(predicates, order, ctx.limit, ctx.offset, []), ctx.fields, withGroups, withProxy,
                          PlanOf(withParent), PlanOf(withChildren),
                          if withAccountGroups == null then None else Some(withAccountGroups.plan))
    {
      this.ctx, this.predicates, this.order, this.modifiers := ctx, predicates, order, [];
      this.withGroups, this.withProxy := withGroups, withProxy;
      this.withParent, this.withChildren, this.withAccountGroups := withParent, withChildren, withAccountGroups;
      plan := AccountPlan(Settings(predicates, order, ctx.limit, ctx.offset, []), ctx.fields, withGroups, withProxy,
                          PlanOf(withParent), PlanOf(withChildren),
                          if withAccountGroups == null then None else Some(withAccountGroups.plan));
      new;
      Repr := {this, ctx} + R1 + R2 + R3;
    }

    ghost static function ReprOf(q: AccountQuery?): set<object>
      reads q
    {
      if q == null then {} else q.Repr
    }

    ghost static function PlanOf(q: AccountQuery?): Option<AccountPlan>
      reads q
    {
      if q == null then None else Some(q.plan)
    }

    lemma Parts()
      requires Valid()
      ensures this in Repr && ctx in Repr
      ensures withParent != null ==> withParent.Valid() && withParent.Repr < Repr && this !in withParent.Repr
      ensures withChildren != null ==> withChildren.Valid() && withChildren.Repr < Repr && this !in withChildren.Repr
      ensures withAccountGroups != null ==>
              withAccountGroups.Valid() && withAccountGroups.Repr <= Repr && this !in withAccountGroups.Repr
      ensures plan ==
              AccountPlan(Settings(predicates, order, ctx.limit, ctx.offset, modifiers), ctx.fields,
                          withGroups, withProxy, PlanOf(withParent), PlanOf(withChildren),
                          if withAccountGroups == null then None else Some(withAccountGroups.plan))
    {
    }

    /** A nil sub-builder has a nil clone. */
    static method CloneOf(q: AccountQuery?, ghost used: set<object>) returns (c: AccountQuery?, ghost R: set<object>)
      requires q != null ==> q.Valid()
      ensures (c == null <==> q == null) && R == ReprOf(c) && fresh(R) && R !! used
      ensures q != null ==> c.Valid() && c.plan == UnlockedPlan(q.plan)
      decreases if q == null then {} else q.Repr, 2
    {
      c, R := null, {};
      if q != null {
        c := q.Clone();
        R := c.Repr;
      }
    }

    method CloneParts()
            returns (context: QueryContext, parent: AccountQuery?, children: AccountQuery?, joins: AccountGroupQuery?,
                     ghost R1: set<object>, ghost R2: set<object>, ghost R3: set<object>)
      requires Valid()
      ensures fresh(context) && fresh(R1) && fresh(R2) && fresh(R3)
      ensures R1 == ReprOf(parent) && R2 == ReprOf(children) && R3 == AccountGroupQuery.ReprOf(joins)
      ensures R1 !! {context} && R2 !! {context} + R1 && R3 !! {context} + R1 + R2
      ensures context.fields == plan.fields && context.limit == plan.base.limit && context.offset == plan.base.offset
      ensures (parent == null <==> plan.parent.None?) &&
              (parent != null ==> parent.Valid() && parent.plan == UnlockedPlan(plan.parent.value))
      ensures (children == null <==> plan.children.None?) &&
              (children != null ==> children.Valid() && children.plan == UnlockedPlan(plan.children.value))
      ensures (joins == null <==> plan.accountGroups.None?) &&
              (joins != null ==> joins.Valid() && joins.plan == UnlockedJoin(plan.accountGroups.value))
      decreases Repr, 0
    {
      hide Valid, AccountGroupQuery.Valid, UnlockedPlan, UnlockedJoin;
      Parts();
      context := ctx.Clone();
      parent, R1 := CloneOf(withParent, {context});
      children, R2 := CloneOf(withChildren, {context} + R1);
      joins, R3 := AccountGroupQuery.CloneOf(withAccountGroups, {context} + R1 + R2);
    }

    /** A deep copy without the lock modifiers, on objects of its own. */
    method Clone() returns (c: AccountQuery)
      requires Valid()
      ensures fresh(c.Repr) && c.Valid() && c.plan == UnlockedPlan(plan)
      decreases Repr, 1
    {
      hide Valid, AccountGroupQuery.Valid;
      Parts();
      var context, parent, children, joins, R1, R2, R3 := CloneParts();
      c := new AccountQuery.Of(context, predicates, order, UnlockedOption(withGroups), UnlockedOption(withProxy),
          parent, children, joins, R1, R2, R3);
    }

    /** What loadChildren does to the builder before it runs it. */
    method PushParents(ids: seq<int>)
      requires Valid()
      modifies this`predicates, this`plan, ctx`fields
      ensures Valid() && Repr == old(Repr) && plan == PushChildren(old(plan), ids)
    {
      if |ctx.fields| > 0 {
        ctx.AppendFieldOnce(PARENT_ACCOUNT_ID);
      }
      predicates := predicates + [InValues(ParentColumn, ids)];
      plan := PushChildren(plan, ids);
    }

    // ---------- The loaders ----------

    static method LoadGroups(db: Store, query: Settings<GroupRow>, nodes: seq<Account>, ghost es: seq<AccountFields>,
            ghost loaded: Loaded)
        returns (query': Settings<GroupRow>, ghost sent: nat)
      requires Decoded(nodes, es, loaded) && Distinct(IDs(es)) && !Joined(query)
      requires forall i :: 0 <= i < |nodes| ==> nodes[i].Groups == []
      modifies nodes`Groups
      ensures query' == Push(query, JoinAccounts(IDs(es))) && sent == 1
      ensures forall i :: 0 <= i < |nodes| ==> nodes[i].Groups == GroupsOf(ExecPairs(db, query, IDs(es)), es[i].id)
    {
      var edgeIDs := seq(|nodes|, i requires 0 <= i < |nodes| => nodes[i].entity.id);
      assert edgeIDs == IDs(es);
      var byID := IndexByID(edgeIDs);
      query' := Push(query, JoinAccounts(edgeIDs));
      var stream := ExecPairs(db, query, edgeIDs);
      sent := 1;
      StreamInBatch(db, query, edgeIDs);
      var nids, neighbors := IndexPairs(stream, edgeIDs, byID);
      var _ := DistributeGroups(nodes, edgeIDs, stream, nids, neighbors);
    }

    static method LoadProxy(db: Store, query: Settings<ProxyRow>, nodes: seq<Account>, ghost es: seq<AccountFields>,
            ghost loaded: Loaded)
        returns (query': Settings<ProxyRow>, ghost sent: nat)
      requires Decoded(nodes, es, loaded)
      requires forall i :: 0 <= i < |nodes| ==> nodes[i].Proxy == None
      modifies nodes`Proxy
      ensures query' == if FirstUse(ProxyKeys(es)) == [] then query else PushProxy(query, ProxyKeys(es))
      ensures sent == if FirstUse(ProxyKeys(es)) == [] then 0 else 1
      ensures forall i :: 0 <= i < |nodes| ==> nodes[i].Proxy == BatchProxy(db, query, ProxyKeys(es), es[i].proxyId)
    {
      query', sent := query, 0;
      var fks := seq(|nodes|, i requires 0 <= i < |nodes| => nodes[i].entity.proxyId);
      assert fks == ProxyKeys(es);
      var ids, nodeids := CollectKeys(fks);
      if |ids| == 0 {
        AllNull(fks);
        var nb := Exec(db.proxies, PushProxy(query, fks));
        LatestNull(ProxyIDs(nb), nb, |nb|);
        return;
      }
      query' := Push(query, InValues(ProxyId, ids));
      var neighbors := Exec(db.proxies, query');
      sent := 1;
      ProxiesWanted(db, query, fks);
      var _ := DistributeProxies(nodes, fks, nodeids, neighbors);
    }

    /** Handing out this query's results does not touch the query. */
    method HandOutParents(nodes: seq<Account>, ghost fks: seq<Option<int>>, nodeids: map<int, seq<nat>>,
                          neighbors: seq<Account>, ghost nbs: seq<AccountFields>, ghost loaded: Loaded,
                          ghost ts: seq<AccountTree>, ghost S: set<object>)
      requires Valid() && Apart(nodes, Repr)
      requires Distinct(nodes) && |fks| == |nodes| && Decoded(neighbors, nbs, loaded)
      requires forall i :: 0 <= i < |nodes| ==> nodes[i].Parent == null
      requires Apart(nodes, S) && ChildrenShow(neighbors, ts, S)
      requires Indexed(nodeids, fks) && Wanted(IDs(nbs), fks)
      modifies nodes`Parent
      ensures Valid() && Repr == old(Repr) && plan == old(plan)
      ensures ParentsShow(nodes, LatestOf(IDs(nbs), ts, fks), S)
    {
      hide ParentsShow, LatestOf, Wanted, Indexed, Decoded, ChildrenShow;
      AttachParents(nodes, fks, nodeids, neighbors, nbs, loaded, ts, S);
      StaysValid();
    }

    method HandOutChildren(nodes: seq<Account>, ghost ids: seq<int>, nodeids: map<int, nat>,
                           neighbors: seq<Account>, ghost nbs: seq<AccountFields>, ghost loaded: Loaded,
                           ghost ts: seq<AccountTree>, ghost S: set<object>)
      requires Valid() && Apart(nodes, Repr)
      requires Distinct(nodes) && |ids| == |nodes| && Decoded(neighbors, nbs, loaded)
      requires Distinct(ids) && IndexedByID(nodeids, ids) && Known(ParentKeys(nbs), ids)
      requires forall i :: 0 <= i < |nodes| ==> nodes[i].Children == []
      requires Apart(nodes, S) && ChildrenShow(neighbors, ts, S)
      modifies nodes`Children
      ensures Valid() && Repr == old(Repr) && plan == old(plan)
      ensures AllChildrenShow(nodes, PartsOf(ts, ParentKeys(nbs), ids), S)
    {
      hide AllChildrenShow, PartsOf, Known, IndexedByID, Decoded, ChildrenShow;
      AttachChildren(nodes, ids, nodeids, neighbors, nbs, loaded, ts, S);
      StaysValid();
    }

    static method ReadParentKeys(nodes: seq<Account>, ghost es: seq<AccountFields>, ghost loaded: Loaded)
            returns (fks: seq<Option<int>>)
      requires Decoded(nodes, es, loaded)
      ensures fks == ParentKeys(es)
    {
      fks := seq(|nodes|, i requires 0 <= i < |nodes| => nodes[i].entity.parentAccountId);
    }

    /** The second half of loadParent: the pushed query runs, and its rows are handed out. */
    static method RunParents(db: Store, query: AccountQuery, nodes: seq<Account>, nodeids: map<int, seq<nat>>,
                             ghost p: AccountPlan, ghost es: seq<AccountFields>)
        returns (ok: bool, ghost sent: nat, ghost S: set<object>)
      requires query.Valid() && p.parent.Some? && query.plan == PushParent(p.parent.value, ParentKeys(es))
      requires Keyed(db) && FirstRun(query.plan)
      requires Distinct(nodes) && |es| == |nodes| && Apart(nodes, query.Repr) && Indexed(nodeids, ParentKeys(es))
      requires forall i :: 0 <= i < |nodes| ==> nodes[i].Parent == null
      modifies query.Repr, nodes`Parent
      ensures query.Valid() && query.Repr == old(query.Repr)
      ensures ok <==> !AllFails(db, old(query.plan))
      ensures sent == Sent(db, old(query.plan))
      ensures query.plan == AfterAll(db, old(query.plan))
      ensures fresh(S)
      ensures ok ==> ParentsShow(nodes, EdgeParents(db, p, es), S)
      decreases query.Repr, 4
    {
      hide Exec, FirstUse, Indexed, Wanted, ChildrenShow, Keyed, FirstRun, Batch, AllFails, AfterAll, Sent, Decoded,
           ParentsShow, EdgeParents, LatestOf, PushParent, AccountQuery.Valid;
      ghost var q := query.plan;
      query.Parts();
      var neighbors;
      ok, neighbors, sent, S := query.All(db);
      if ok {
        ghost var rows := Exec(db.accounts, q.base);
        ParentsWanted(db, p.parent.value, ParentKeys(es));
        ParentsAreLatest(db, p, es);
        query.HandOutParents(nodes, ParentKeys(es), nodeids, neighbors, DecodeAll(q, rows), LoadedTypes(q),
            Batch(db, q, rows), S);
      }
    }

    static method LoadParent(db: Store, query: AccountQuery, nodes: seq<Account>, ghost p: AccountPlan,
                             ghost es: seq<AccountFields>, ghost loaded: Loaded)
        returns (ok: bool, ghost sent: nat, ghost S: set<object>)
      requires query.Valid() && p.parent == Some(query.plan) && Keyed(db) && FirstRun(query.plan)
      requires Distinct(nodes) && |es| == |nodes| && Decoded(nodes, es, loaded) && Apart(nodes, query.Repr)
      requires forall i :: 0 <= i < |nodes| ==> nodes[i].Parent == null
      modifies query.Repr, nodes`Parent
      ensures query.Valid() && query.Repr == old(query.Repr)
      ensures ok <==> !ParentFails(db, p, es)
      ensures Some(query.plan) == AfterParent(db, p, es)
      ensures sent == SentParent(db, p, es)
      ensures fresh(S)
      ensures ok ==> ParentsShow(nodes, EdgeParents(db, p, es), S)
      decreases query.Repr, 5
    {
      hide FirstUse, Indexed, Keyed, FirstRun, AllFails, AfterAll, Sent, Decoded, ParentsShow, EdgeParents,
           AccountQuery.Valid, Distinct;
      query.Parts();
      sent, S := 0, {};
      var fks := ReadParentKeys(nodes, es, loaded);
      var ids, nodeids := CollectKeys(fks);
      if |ids| == 0 {
        ok := true;
        NoParents(db, p, nodes, es, S);
        return;
      }
      PushedFirstRun(query.plan, fks, []);
      query.Where([InValues(AccountId, ids)]);
      assert query.plan == PushParent(old(query.plan), fks);
      ok, sent, S := RunParents(db, query, nodes, nodeids, p, es);
    }

    static method ReadIDs(nodes: seq<Account>, ghost es: seq<AccountFields>, ghost loaded: Loaded)
            returns (ids: seq<int>)
      requires Decoded(nodes, es, loaded)
      ensures ids == IDs(es)
    {
      ids := seq(|nodes|, i requires 0 <= i < |nodes| => nodes[i].entity.id);
    }

    /** The second half of loadChildren. */
    static method RunChildren(db: Store, query: AccountQuery, nodes: seq<Account>, nodeids: map<int, nat>,
                              ghost p: AccountPlan, ghost es: seq<AccountFields>)
        returns (ok: bool, ghost sent: nat, ghost S: set<object>)
      requires query.Valid() && p.children.Some? && query.plan == PushChildren(p.children.value, IDs(es))
      requires Keyed(db) && FirstRun(query.plan)
      requires Distinct(nodes) && |es| == |nodes| && Apart(nodes, query.Repr)
      requires Distinct(IDs(es)) && IndexedByID(nodeids, IDs(es))
      requires forall i :: 0 <= i < |nodes| ==> nodes[i].Children == []
      modifies query.Repr, nodes`Children
      ensures query.Valid() && query.Repr == old(query.Repr)
      ensures ok <==> !AllFails(db, old(query.plan))
      ensures sent == Sent(db, old(query.plan))
      ensures query.plan == AfterAll(db, old(query.plan))
      ensures fresh(S)
      ensures ok ==> AllChildrenShow(nodes, AllEdgeChildren(db, p, es), S)
      decreases query.Repr, 4
    {
      hide Exec, IndexedByID, Known, ChildrenShow, Keyed, FirstRun, Batch, AllFails, AfterAll, Sent, Decoded,
           AllChildrenShow, AllEdgeChildren, PartsOf, PushChildren, AccountQuery.Valid;
      ghost var q := query.plan;
      query.Parts();
      var neighbors;
      ok, neighbors, sent, S := query.All(db);
      if ok {
        ghost var rows := Exec(db.accounts, q.base);
        ChildrenKnown(db, p.children.value, IDs(es));
        ChildrenAreParts(db, p, es);
        query.HandOutChildren(nodes, IDs(es), nodeids, neighbors, DecodeAll(q, rows), LoadedTypes(q),
            Batch(db, q, rows), S);
      }
    }

    static method LoadChildren(db: Store, query: AccountQuery, nodes: seq<Account>, ghost p: AccountPlan,
                               ghost es: seq<AccountFields>, ghost loaded: Loaded)
        returns (ok: bool, ghost sent: nat, ghost S: set<object>)
      requires query.Valid() && p.children == Some(query.plan) && Keyed(db) && FirstRun(query.plan)
      requires Distinct(nodes) && |es| == |nodes| && Decoded(nodes, es, loaded) && Apart(nodes, query.Repr)
      requires Distinct(IDs(es)) && forall i :: 0 <= i < |nodes| ==> nodes[i].Children == []
      modifies query.Repr, nodes`Children
      ensures query.Valid() && query.Repr == old(query.Repr)
      ensures ok <==> !ChildrenFail(db, p, es)
      ensures Some(query.plan) == AfterChildren(db, p, es)
      ensures sent == SentChildren(db, p, es)
      ensures fresh(S)
      ensures ok ==> AllChildrenShow(nodes, AllEdgeChildren(db, p, es), S)
      decreases query.Repr, 5
    {
      hide IndexedByID, Keyed, FirstRun, AllFails, AfterAll, Sent, Decoded, AllChildrenShow, AllEdgeChildren,
           PushChildren, AccountQuery.Valid, Distinct;
      query.Parts();
      var ids := ReadIDs(nodes, es, loaded);
      var nodeids := IndexByID(ids);
      PushedFirstRun(query.plan, [], ids);
      query.PushParents(ids);
      ok, sent, S := RunChildren(db, query, nodes, nodeids, p, es);
    }

    static method LoadAccountGroups(db: Store, query: AccountGroupQuery, nodes: seq<Account>, ghost p: AccountPlan,
                                    ghost es: seq<AccountFields>, ghost loaded: Loaded)
        returns (ok: bool, ghost sent: nat, ghost S: set<object>)
      requires query.Valid() && p.accountGroups == Some(query.plan)
      requires Distinct(nodes) && |es| == |nodes| && Decoded(nodes, es, loaded) && Apart(nodes, query.Repr)
      requires Distinct(IDs(es)) && forall i :: 0 <= i < |nodes| ==> nodes[i].AccountGroups == []
      modifies query.Repr, nodes`AccountGroups
      ensures query.Valid() && query.Repr == old(query.Repr)
      ensures ok <==> !JoinsFail(p, es)
      ensures Some(query.plan) == AfterJoins(db, p, es)
      ensures sent == SentJoins(db, p, es)
      ensures fresh(S)
      ensures ok ==> AllJoinsShow(nodes, AllEdgeJoins(db, p, es), S)
    {
      hide Exec, IndexedByID, Known, Decoded, AllJoinsShow, AllEdgeJoins, PartsOf;
      S := {};
      var ids := ReadIDs(nodes, es, loaded);
      var nodeids := IndexByID(ids);
      query.PushAccounts(ids);
      var neighbors;
      ok, neighbors, sent := query.All(db);
      if ok {
        S := set n | n in neighbors;
        ghost var q := PushJoin(p.accountGroups.value, ids);
        ghost var rows := Exec(db.accountGroups, q.base);
        JoinsKnown(db, p.accountGroups.value, ids);
        JoinsAreParts(db, p, es);
        AttachJoins(nodes, ids, nodeids, neighbors, DecodeJoins(q, rows), JoinTrees(db, q, rows), S);
      }
    }

    // ---------- sqlAll, edge by edge ----------

    /** Only the plan of the builder itself, and the builders below `sub`, have changed. */
    twostate predicate OnlyBelow(all: set<object>, sub: set<object>)
      reads this, all
    {
      && unchanged(`ctx, `predicates, `order, `modifiers, `withGroups, `withProxy, `withParent, `withChildren,
          `withAccountGroups, `Repr)
      && forall o :: o in all && o !in sub && o != this ==> unchanged(o)
    }

    /** So it stays valid if nothing below it has changed. */
    twostate lemma OwnChanged()
      requires old(Valid()) && unchanged(`ctx, `withParent, `withChildren, `withAccountGroups, `Repr)
      requires forall o :: o in old(Repr) && o != this && o != old(ctx) ==> unchanged(o)
      requires plan == AccountPlan(Settings(predicates, order, ctx.limit, ctx.offset, modifiers), ctx.fields,
                                   withGroups, withProxy, old(plan.parent), old(plan.children),
                                   old(plan.accountGroups))
      ensures Valid()
    {
    }

    twostate lemma ParentRan()
      requires old(Valid()) && old(withParent) != null && withParent == old(withParent) &&
              OnlyBelow(old(Repr), old(withParent.Repr))
      requires withParent.Valid() && withParent.Repr == old(withParent.Repr)
      requires plan == old(plan).(parent := Some(withParent.plan))
      ensures Valid()
    {
    }

    twostate lemma ChildrenRan()
      requires old(Valid()) && old(withChildren) != null && withChildren == old(withChildren) &&
              OnlyBelow(old(Repr), old(withChildren.Repr))
      requires withChildren.Valid() && withChildren.Repr == old(withChildren.Repr)
      requires plan == old(plan).(children := Some(withChildren.plan))
      ensures Valid()
    {
    }

    twostate lemma JoinsRan()
      requires old(Valid()) && old(withAccountGroups) != null && withAccountGroups == old(withAccountGroups) &&
              OnlyBelow(old(Repr), old(withAccountGroups.Repr))
      requires withAccountGroups.Valid() && withAccountGroups.Repr == old(withAccountGroups.Repr)
      requires plan == old(plan).(accountGroups := Some(withAccountGroups.plan))
      ensures Valid()
    {
    }

    method EagerGroups(db: Store, nodes: seq<Account>, ghost p: AccountPlan, ghost es: seq<AccountFields>,
            ghost loaded: Loaded)
        returns (ghost sent: nat)
      requires Valid() && plan.groups == p.groups && (plan.groups.Some? ==> !Joined(plan.groups.value))
      requires Decoded(nodes, es, loaded) && Distinct(IDs(es)) && Apart(nodes, Repr)
      requires forall i :: 0 <= i < |nodes| ==> nodes[i].Groups == []
      modifies this`withGroups, this`plan, nodes`Groups
      ensures Valid() && Repr == old(Repr) && plan == old(plan).(groups := AfterGroups(p, es))
      ensures sent == SentGroups(p)
      ensures forall i :: 0 <= i < |nodes| ==> nodes[i].Groups == EdgeGroups(db, p, es, i)
    {
      hide ExecPairs, GroupsOf, Decoded, Distinct, EdgeGroups, AfterGroups, SentGroups, Joined, Valid;
      Parts();
      DecodedLength(nodes, es, loaded);
      sent := 0;
      if withGroups.Some? {
        var query;
        query, sent := LoadGroups(db, withGroups.value, nodes, es, loaded);
        withGroups := Some(query);
        plan := plan.(groups := withGroups);
        OwnChanged();
        GroupsLoaded(db, p, nodes, es);
      } else {
        GroupsNotRequested(db, p, nodes, es);
      }
    }

    method EagerProxy(db: Store, nodes: seq<Account>, ghost p: AccountPlan, ghost es: seq<AccountFields>,
            ghost loaded: Loaded)
        returns (ghost sent: nat)
      requires Valid() && plan.proxy == p.proxy
      requires Decoded(nodes, es, loaded) && Apart(nodes, Repr)
      requires forall i :: 0 <= i < |nodes| ==> nodes[i].Proxy == None
      modifies this`withProxy, this`plan, nodes`Proxy
      ensures Valid() && Repr == old(Repr) && plan == old(plan).(proxy := AfterProxy(p, es))
      ensures sent == SentProxy(p, es)
      ensures forall i :: 0 <= i < |nodes| ==> nodes[i].Proxy == EdgeProxy(db, p, es, i)
    {
      hide BatchProxy, Decoded, FirstUse, EdgeProxy, AfterProxy, SentProxy, Valid;
      Parts();
      DecodedLength(nodes, es, loaded);
      sent := 0;
      if withProxy.Some? {
        var query;
        query, sent := LoadProxy(db, withProxy.value, nodes, es, loaded);
        withProxy := Some(query);
        plan := plan.(proxy := withProxy);
        ProxyLoaded(db, p, nodes, es);
        OwnChanged();
      } else {
        ProxyNotRequested(db, p, nodes, es);
      }
    }

    method EagerParent(db: Store, nodes: seq<Account>, ghost p: AccountPlan, ghost es: seq<AccountFields>,
            ghost loaded: Loaded)
        returns (ok: bool, ghost sent: nat, ghost S: set<object>)
      requires Valid() && plan.parent == p.parent && Keyed(db) && (plan.parent.Some? ==> FirstRun(plan.parent.value))
      requires Distinct(nodes) && |es| == |nodes| && Decoded(nodes, es, loaded) && Apart(nodes, Repr)
      requires forall i :: 0 <= i < |nodes| ==> nodes[i].Parent == null
      modifies this`plan, (if withParent == null then {} else withParent.Repr), nodes`Parent
      ensures Valid() && Repr == old(Repr)
      ensures ok <==> !ParentFails(db, p, es)
      ensures plan == old(plan).(parent := AfterParent(db, p, es))
      ensures sent == SentParent(db, p, es)
      ensures fresh(S)
      ensures ok ==> ParentsShow(nodes, EdgeParents(db, p, es), S)
      decreases Repr, 0
    {
      hide Keyed, SentParent, AllFails, AfterAll, FirstUse, BatchParent, Decoded, ParentFails, AfterParent,
           ParentsShow, EdgeParents, Distinct, Valid;
      Parts();
      ok, sent, S := true, 0, {};
      if withParent != null {
        ok, sent, S := LoadParent(db, withParent, nodes, p, es, loaded);
        plan := plan.(parent := Some(withParent.plan));
        ParentRan();
      } else {
        ParentNotRequested(db, nodes, p, es, S);
      }
    }

    method EagerChildren(db: Store, nodes: seq<Account>, ghost p: AccountPlan, ghost es: seq<AccountFields>,
            ghost loaded: Loaded)
        returns (ok: bool, ghost sent: nat, ghost S: set<object>)
      requires Valid() && plan.children == p.children && Keyed(db) &&
              (plan.children.Some? ==> FirstRun(plan.children.value))
      requires Distinct(nodes) && |es| == |nodes| && Decoded(nodes, es, loaded) && Apart(nodes, Repr) &&
              Distinct(IDs(es))
      requires forall i :: 0 <= i < |nodes| ==> nodes[i].Children == []
      modifies this`plan, (if withChildren == null then {} else withChildren.Repr), nodes`Children
      ensures Valid() && Repr == old(Repr)
      ensures ok <==> !ChildrenFail(db, p, es)
      ensures plan == old(plan).(children := AfterChildren(db, p, es))
      ensures sent == SentChildren(db, p, es)
      ensures fresh(S)
      ensures ok ==> AllChildrenShow(nodes, AllEdgeChildren(db, p, es), S)
      decreases Repr, 0
    {
      hide Keyed, FirstRun, SentChildren, AllFails, AfterAll, BatchChildren, Decoded, ChildrenFail, AfterChildren,
           AllChildrenShow, AllEdgeChildren, Distinct, Valid;
      Parts();
      ok, sent, S := true, 0, {};
      if withChildren != null {
        ok, sent, S := LoadChildren(db, withChildren, nodes, p, es, loaded);
        plan := plan.(children := Some(withChildren.plan));
        ChildrenRan();
      } else {
        ChildrenNotRequested(db, nodes, p, es, S);
      }
    }

    method EagerJoins(db: Store, nodes: seq<Account>, ghost p: AccountPlan, ghost es: seq<AccountFields>,
            ghost loaded: Loaded)
        returns (ok: bool, ghost sent: nat, ghost S: set<object>)
      requires Valid() && plan.accountGroups == p.accountGroups
      requires Distinct(nodes) && |es| == |nodes| && Decoded(nodes, es, loaded) && Apart(nodes, Repr) &&
              Distinct(IDs(es))
      requires forall i :: 0 <= i < |nodes| ==> nodes[i].AccountGroups == []
      modifies this`plan, (if withAccountGroups == null then {} else withAccountGroups.Repr), nodes`AccountGroups
      ensures Valid() && Repr == old(Repr)
      ensures ok <==> !JoinsFail(p, es)
      ensures plan == old(plan).(accountGroups := AfterJoins(db, p, es))
      ensures sent == SentJoins(db, p, es)
      ensures fresh(S)
      ensures ok ==> AllJoinsShow(nodes, AllEdgeJoins(db, p, es), S)
    {
      hide BatchJoins, SentJoins, Decoded, JoinsFail, AfterJoins, AllJoinsShow, AllEdgeJoins, Distinct, Valid;
      Parts();
      ok, sent, S := true, 0, {};
      if withAccountGroups != null {
        ok, sent, S := LoadAccountGroups(db, withAccountGroups, nodes, p, es, loaded);
        plan := plan.(accountGroups := Some(withAccountGroups.plan));
        JoinsRan();
      } else {
        JoinsNotRequested(db, nodes, p, es, S);
      }
    }

    /**
     The columns of querySpec: the ID first, the selected fields, then the foreign keys that the requested edges need.
     */
    method SpecColumns() returns (cols: seq<string>)
      requires Valid()
      ensures cols == PlanColumns(plan)
    {
      if |ctx.fields| == 0 {
        return ACCOUNT_COLUMNS;
      }
      cols := [ID];
      for i := 0 to |ctx.fields|
        invariant cols == [ID] + Without(ctx.fields[..i], ID)
      {
        assert ctx.fields[..i + 1][..i] == ctx.fields[..i];
        if ctx.fields[i] != ID {
          cols := cols + [ctx.fields[i]];
        }
      }
      assert ctx.fields[..|ctx.fields|] == ctx.fields;
      if withProxy.Some? && PROXY_ID !in cols {
        cols := cols + [PROXY_ID];
      }
      if withParent != null && PARENT_ACCOUNT_ID !in cols {
        cols := cols + [PARENT_ACCOUNT_ID];
      }
    }

    /** One entity for each row, without edges yet. */
    static method Scan(cols: seq<string>, rows: seq<AccountRow>, loaded: Loaded, ghost es: seq<AccountFields>)
            returns (nodes: seq<Account>)
      requires |es| == |rows| && forall i :: 0 <= i < |rows| ==> es[i] == Decode(cols, rows[i])
      ensures fresh(nodes) && Decoded(nodes, es, loaded) && Blank(nodes)
    {
      hide Decode;
      nodes := [];
      for k := 0 to |rows|
        invariant fresh(nodes) && Decoded(nodes, es[..k], loaded) && Blank(nodes)
      {
        var n := new Account(Decode(cols, rows[k]), loaded);
        nodes := nodes + [n];
      }
      assert es[..|rows|] == es;
    }

    ghost static predicate Blank(nodes: seq<Account>)
      reads nodes
    {
      forall i :: 0 <= i < |nodes| ==>
        nodes[i].Groups == [] && nodes[i].Proxy == None && nodes[i].Parent == null && nodes[i].Children == [] &&
            nodes[i].AccountGroups == []
    }

    /** The groups and proxy edges. */
    method EagerLeaves(db: Store, nodes: seq<Account>, ghost p: AccountPlan, ghost es: seq<AccountFields>,
            ghost loaded: Loaded)
        returns (ghost sent: nat)
      requires Valid() && FirstRun(plan) && plan == p
      requires Decoded(nodes, es, loaded) && Apart(nodes, Repr) && Distinct(IDs(es)) && Blank(nodes)
      modifies this`withGroups, this`withProxy, this`plan, nodes`Groups, nodes`Proxy
      ensures Valid() && Repr == old(Repr)
      ensures plan == p.(groups := AfterGroups(p, es), proxy := AfterProxy(p, es))
      ensures sent == SentGroups(p) + SentProxy(p, es)
      ensures LeavesShow(db, nodes, p, es)
    {
      hide SentGroups, SentProxy, FirstRun, Decoded, Distinct, EdgeGroups, EdgeProxy, AfterGroups, AfterProxy, Valid;
      FirstRunParts(p);
      DecodedLength(nodes, es, loaded);
      ghost var n;
      sent := EagerGroups(db, nodes, p, es, loaded);
      n := EagerProxy(db, nodes, p, es, loaded);
      sent := sent + n;
    }

    ghost static predicate LeavesShow(db: Store, nodes: seq<Account>, p: AccountPlan, es: seq<AccountFields>)
      reads nodes`Groups, nodes`Proxy
    {
      && |es| == |nodes|
      && (forall i :: 0 <= i < |nodes| ==> nodes[i].Groups == EdgeGroups(db, p, es, i))
      && (forall i :: 0 <= i < |nodes| ==> nodes[i].Proxy == EdgeProxy(db, p, es, i))
    }

    /** The groups, proxy and parent edges. */
    method EagerFirst(db: Store, nodes: seq<Account>, ghost p: AccountPlan, ghost es: seq<AccountFields>,
            ghost loaded: Loaded)
        returns (ok: bool, ghost sent: nat, ghost S: set<object>)
      requires Valid() && Keyed(db) && FirstRun(plan) && plan == p
      requires Distinct(nodes) && |es| == |nodes| && Decoded(nodes, es, loaded) && Apart(nodes, Repr) &&
              Distinct(IDs(es))
      requires Blank(nodes)
      modifies Repr, nodes`Groups, nodes`Proxy, nodes`Parent
      ensures Valid() && Repr == old(Repr)
      ensures ok <==> !ParentFails(db, p, es)
      ensures plan == p.(groups := AfterGroups(p, es), proxy := AfterProxy(p, es), parent := AfterParent(db, p, es))
      ensures sent == SentGroups(p) + SentProxy(p, es) + SentParent(db, p, es)
      ensures LeavesShow(db, nodes, p, es)
      ensures fresh(S)
      ensures ok ==> ParentsShow(nodes, EdgeParents(db, p, es), S)
      decreases Repr, 1
    {
      hide SentGroups, SentProxy, SentParent, Keyed, FirstRun, Decoded, Distinct, ParentsShow, EdgeParents,
           LeavesShow, ParentFails, AfterGroups, AfterProxy, AfterParent;
      FirstRunParts(p);
      ghost var n;
      sent := EagerLeaves(db, nodes, p, es, loaded);
      ok, n, S := EagerParent(db, nodes, p, es, loaded);
      sent := sent + n;
    }

    /** The account_groups edge, after children that show `ts`. */
    method EagerLast(db: Store, nodes: seq<Account>, ghost p: AccountPlan, ghost es: seq<AccountFields>,
            ghost loaded: Loaded, ghost ts: seq<seq<AccountTree>>, ghost S: set<object>)
        returns (ok: bool, ghost sent: nat, ghost S': set<object>)
      requires Valid() && plan.accountGroups == p.accountGroups
      requires Distinct(nodes) && |es| == |nodes| && Decoded(nodes, es, loaded) && Apart(nodes, Repr) &&
              Distinct(IDs(es))
      requires forall i :: 0 <= i < |nodes| ==> nodes[i].AccountGroups == []
      requires AllChildrenShow(nodes, ts, S) && S !! Repr && Apart(nodes, S)
      modifies this`plan, (if withAccountGroups == null then {} else withAccountGroups.Repr), nodes`AccountGroups
      ensures Valid() && Repr == old(Repr)
      ensures ok <==> !JoinsFail(p, es)
      ensures plan == old(plan).(accountGroups := AfterJoins(db, p, es))
      ensures sent == SentJoins(db, p, es)
      ensures S <= S' && fresh(S' - S)
      ensures ok ==> AllChildrenShow(nodes, ts, S') && AllJoinsShow(nodes, AllEdgeJoins(db, p, es), S')
    {
      hide SentJoins, Decoded, Distinct, AllChildrenShow, AllJoinsShow, AllEdgeJoins, JoinsFail, AfterJoins, Valid;
      Parts();
      ghost var T;
      ok, sent, T := EagerJoins(db, nodes, p, es, loaded);
      S' := S + T;
      if ok {
        AllChildrenShowMore(nodes, ts, S, S');
        AllJoinsShowMore(nodes, AllEdgeJoins(db, p, es), T, S');
      }
    }

    /** The children and account_groups edges. */
    method EagerSecond(db: Store, nodes: seq<Account>, ghost p: AccountPlan, ghost es: seq<AccountFields>,
            ghost loaded: Loaded)
        returns (ok: bool, ghost sent: nat, ghost S: set<object>)
      requires Valid() && Keyed(db) && FirstRun(p) && plan.children == p.children &&
              plan.accountGroups == p.accountGroups
      requires Distinct(nodes) && |es| == |nodes| && Decoded(nodes, es, loaded) && Apart(nodes, Repr) &&
              Distinct(IDs(es))
      requires forall i :: 0 <= i < |nodes| ==> nodes[i].Children == [] && nodes[i].AccountGroups == []
      modifies Repr, nodes`Children, nodes`AccountGroups
      ensures Valid() && Repr == old(Repr)
      ensures ok <==> !(ChildrenFail(db, p, es) || JoinsFail(p, es))
      ensures plan == old(plan).(children := AfterChildren(db, p, es),
                                 accountGroups := if ChildrenFail(db, p, es) then p.accountGroups
                                     else AfterJoins(db, p, es))
      ensures sent == SentLater(db, p, es)
      ensures fresh(S)
      ensures ok ==> AllChildrenShow(nodes, AllEdgeChildren(db, p, es), S)
      ensures ok ==> AllJoinsShow(nodes, AllEdgeJoins(db, p, es), S)
      decreases Repr, 1
    {
      hide SentChildren, SentJoins, Keyed, FirstRun, Decoded, Distinct, AllChildrenShow, AllJoinsShow,
           AllEdgeChildren, AllEdgeJoins, ChildrenFail, JoinsFail, AfterChildren, AfterJoins, Valid;
      FirstRunParts(p);
      Parts();
      ok, sent, S := EagerChildren(db, nodes, p, es, loaded);
      if ok {
        Parts();
        assert S !! Repr && Apart(nodes, S);
        ghost var n;
        ok, n, S := EagerLast(db, nodes, p, es, loaded, AllEdgeChildren(db, p, es), S);
        sent := sent + n;
      }
    }

    /** The edges of a non-empty batch, in the order of sqlAll. */
    method EagerLoad(db: Store, nodes: seq<Account>, ghost p: AccountPlan, ghost es: seq<AccountFields>,
            ghost loaded: Loaded)
        returns (ok: bool, ghost sent: nat, ghost S: set<object>)
      requires Valid() && Keyed(db) && FirstRun(plan) && plan == p
      requires Distinct(nodes) && |es| == |nodes| && Decoded(nodes, es, loaded) && Apart(nodes, Repr) &&
              Distinct(IDs(es))
      requires Blank(nodes)
      modifies Repr, nodes
      ensures Valid() && Repr == old(Repr)
      ensures ok <==> !(ParentFails(db, p, es) || ChildrenFail(db, p, es) || JoinsFail(p, es))
      ensures plan == AfterEdges(db, p, es)
      ensures sent == SentEdges(db, p, es)
      ensures fresh(S)
      ensures ok ==> EdgesShow(db, nodes, p, es, S)
      decreases Repr, 2
    {
      hide SentGroups, SentProxy, SentParent, SentLater, Keyed, FirstRun, Decoded, Distinct, ParentsShow,
           AllChildrenShow, AllJoinsShow, EdgeParents, AllEdgeChildren, AllEdgeJoins, LeavesShow, ParentFails,
           ChildrenFail, JoinsFail, AfterGroups, AfterProxy, AfterParent, AfterChildren, AfterJoins, Valid;
      Parts();
      ok, sent, S := EagerFirst(db, nodes, p, es, loaded);
      if ok {
        ghost var S1 := S;
        ghost var S2;
        ghost var n;
        ok, n, S2 := EagerSecond(db, nodes, p, es, loaded);
        sent := sent + n;
        S := S1 + S2;
        if ok {
          ParentsShowMore(nodes, EdgeParents(db, p, es), S1, S);
          AllChildrenShowMore(nodes, AllEdgeChildren(db, p, es), S2, S);
          AllJoinsShowMore(nodes, AllEdgeJoins(db, p, es), S2, S);
        }
      }
    }

    ghost static predicate EdgesShow(db: Store, nodes: seq<Account>, p: AccountPlan, es: seq<AccountFields>,
            S: set<object>)
      reads nodes, S
    {
      && LeavesShow(db, nodes, p, es)
      && ParentsShow(nodes, EdgeParents(db, p, es), S)
      && AllChildrenShow(nodes, AllEdgeChildren(db, p, es), S)
      && AllJoinsShow(nodes, AllEdgeJoins(db, p, es), S)
    }

    /** The rows of the query itself, decoded, one new object each. */
    method QueryNodes(db: Store) returns (nodes: seq<Account>, ghost sent: nat)
      requires Valid()
      ensures sent == 1
      ensures fresh(nodes) && Blank(nodes)
      ensures Decoded(nodes, DecodeAll(plan, Exec(db.accounts, plan.base)), LoadedTypes(plan))
    {
      hide Exec, Decoded, Decode, Blank, Columns, ACCOUNT_COLUMNS, Valid;
      Parts();
      var cols := SpecColumns();
      var rows := Exec(db.accounts, Settings(predicates, order, ctx.limit, ctx.offset, modifiers));
      sent := 1;
      var loaded := Loaded(withGroups.Some?, withProxy.Some?, withParent != null, withChildren != null,
          withAccountGroups != null);
      nodes := Scan(cols, rows, loaded, DecodeAll(plan, rows));
    }

    /** prepareQuery and sqlAll. */
    method All(db: Store) returns (ok: bool, nodes: seq<Account>, ghost sent: nat, ghost S: set<object>)
      requires Valid() && Keyed(db) && FirstRun(plan)
      modifies Repr
      ensures Valid() && Repr == old(Repr)
      ensures ok <==> !AllFails(db, old(plan))
      ensures plan == AfterAll(db, old(plan))
      ensures sent == Sent(db, old(plan))
      ensures fresh(S)
      ensures ok ==> Decoded(nodes, DecodeAll(old(plan), Exec(db.accounts, old(plan).base)), LoadedTypes(old(plan)))
      ensures ok ==> ChildrenShow(nodes, Batch(db, old(plan), Exec(db.accounts, old(plan).base)), S)
      decreases Repr, 3
    {
      hide SentEdges, Keyed, FirstRun, Batch, Exec, EdgesShow, Decoded, ChildrenShow, Blank, Decode, ParentFails,
           ChildrenFail, JoinsFail, AfterEdges, Valid, ACCOUNT_COLUMNS;
      Parts();
      S, nodes := {}, [];
      if exists i :: 0 <= i < |ctx.fields| && ctx.fields[i] !in ACCOUNT_COLUMNS {
        return false, [], 0, {};
      }
      ghost var p := plan;
      ghost var rows := Exec(db.accounts, p.base);
      ghost var es := DecodeAll(p, rows);
      nodes, sent := QueryNodes(db);
      DecodedParts(nodes, es, LoadedTypes(p));
      ok := true;
      if |nodes| > 0 {
        BatchIDsDistinct(db, p);
        ghost var n;
        ok, n, S := EagerLoad(db, nodes, p, es, LoadedTypes(p));
        sent := sent + n;
        if ok {
          AssembleShows(db, nodes, p, rows, S);
          S := S + set n | n in nodes;
        }
      } else {
        NothingToShow(db, nodes, p, rows, S);
      }
    }
  }

  lemma GroupsLoaded(db: Store, p: AccountPlan, nodes: seq<Account>, es: seq<AccountFields>)
    requires p.groups.Some? && |es| == |nodes|
    requires forall i :: 0 <= i < |nodes| ==>
               nodes[i].Groups == GroupsOf(ExecPairs(db, p.groups.value, IDs(es)), es[i].id)
    ensures forall i :: 0 <= i < |nodes| ==> nodes[i].Groups == EdgeGroups(db, p, es, i)
    ensures AfterGroups(p, es) == Some(Push(p.groups.value, JoinAccounts(IDs(es)))) && SentGroups(p) == 1
  {
    hide ExecPairs, GroupsOf;
  }

  lemma GroupsNotRequested(db: Store, p: AccountPlan, nodes: seq<Account>, es: seq<AccountFields>)
    requires p.groups.None? && |es| == |nodes| && forall i :: 0 <= i < |nodes| ==> nodes[i].Groups == []
    ensures forall i :: 0 <= i < |nodes| ==> nodes[i].Groups == EdgeGroups(db, p, es, i)
    ensures AfterGroups(p, es) == None && SentGroups(p) == 0
  {
  }

  lemma ProxyLoaded(db: Store, p: AccountPlan, nodes: seq<Account>, es: seq<AccountFields>)
    requires p.proxy.Some? && |es| == |nodes|
    requires forall i :: 0 <= i < |nodes| ==>
               nodes[i].Proxy == BatchProxy(db, p.proxy.value, ProxyKeys(es), es[i].proxyId)
    ensures forall i :: 0 <= i < |nodes| ==> nodes[i].Proxy == EdgeProxy(db, p, es, i)
    ensures var unused := FirstUse(ProxyKeys(es)) == [];
            && AfterProxy(p, es) == Some(if unused then p.proxy.value else PushProxy(p.proxy.value, ProxyKeys(es)))
            && SentProxy(p, es) == if unused then 0 else 1
  {
    hide BatchProxy, FirstUse;
  }

  lemma ProxyNotRequested(db: Store, p: AccountPlan, nodes: seq<Account>, es: seq<AccountFields>)
    requires p.proxy.None? && |es| == |nodes| && forall i :: 0 <= i < |nodes| ==> nodes[i].Proxy == None
    ensures forall i :: 0 <= i < |nodes| ==> nodes[i].Proxy == EdgeProxy(db, p, es, i)
    ensures AfterProxy(p, es) == None && SentProxy(p, es) == 0
  {
  }

  lemma ParentNotRequested(db: Store, nodes: seq<Account>, p: AccountPlan, es: seq<AccountFields>, S: set<object>)
    requires p.parent.None? && |es| == |nodes| && forall i :: 0 <= i < |nodes| ==> nodes[i].Parent == null
    ensures !ParentFails(db, p, es) && AfterParent(db, p, es) == None && ParentsShow(nodes, EdgeParents(db, p, es), S)
    ensures SentParent(db, p, es) == 0
  {
  }

  lemma ChildrenNotRequested(db: Store, nodes: seq<Account>, p: AccountPlan, es: seq<AccountFields>, S: set<object>)
    requires p.children.None? && |es| == |nodes| && forall i :: 0 <= i < |nodes| ==> nodes[i].Children == []
    ensures !ChildrenFail(db, p, es) && AfterChildren(db, p, es) == None &&
            AllChildrenShow(nodes, AllEdgeChildren(db, p, es), S)
    ensures SentChildren(db, p, es) == 0
  {
  }

  lemma JoinsNotRequested(db: Store, nodes: seq<Account>, p: AccountPlan, es: seq<AccountFields>, S: set<object>)
    requires p.accountGroups.None? && |es| == |nodes| && forall i :: 0 <= i < |nodes| ==> nodes[i].AccountGroups == []
    ensures !JoinsFail(p, es) && AfterJoins(db, p, es) == None && AllJoinsShow(nodes, AllEdgeJoins(db, p, es), S)
    ensures SentJoins(db, p, es) == 0
  {
  }

  lemma DecodedParts(nodes: seq<Account>, es: seq<AccountFields>, loaded: Loaded)
    requires Decoded(nodes, es, loaded)
    ensures Distinct(nodes) && |es| == |nodes|
  {
  }

  lemma NothingToShow(db: Store, nodes: seq<Account>, p: AccountPlan, rows: seq<AccountRow>, S: set<object>)
    requires rows == [] && nodes == []
    ensures ChildrenShow(nodes, Batch(db, p, rows), S)
  {
  }

  lemma AssembleShows(db: Store, nodes: seq<Account>, p: AccountPlan, rows: seq<AccountRow>, S: set<object>)
    requires Decoded(nodes, DecodeAll(p, rows), LoadedTypes(p))
    requires AccountQuery.EdgesShow(db, nodes, p, DecodeAll(p, rows), S)
    ensures ChildrenShow(nodes, Batch(db, p, rows), S + set n | n in nodes)
  {
    var S' := S + set n | n in nodes;
    var ts := Batch(db, p, rows);
    forall i | 0 <= i < |nodes|
      ensures Shows(nodes[i], ts[i], S')
    {
      AssembleShow(db, nodes, p, rows, i, S, S');
    }
  }

  lemma AssembleShow(db: Store, nodes: seq<Account>, p: AccountPlan, rows: seq<AccountRow>, i: nat, S: set<object>,
          S': set<object>)
    requires Decoded(nodes, DecodeAll(p, rows), LoadedTypes(p))
    requires AccountQuery.EdgesShow(db, nodes, p, DecodeAll(p, rows), S)
    requires i < |rows| && S <= S'
    ensures Shows(nodes[i], BatchTree(db, p, rows, i), S')
  {
    var es := DecodeAll(p, rows);
    var n := nodes[i];
    var t := BatchTree(db, p, rows, i);
    assert ParentShows(n.Parent, EdgeParents(db, p, es)[i], S);
    if t.parent.Some? {
      ShowsMore(n.Parent, t.parent.value, S, S');
    }
    assert ChildrenShow(n.Children, AllEdgeChildren(db, p, es)[i], S);
    forall k | 0 <= k < |t.children|
      ensures n.Children[k] in S' && Shows(n.Children[k], t.children[k], S')
    {
      ShowsMore(n.Children[k], t.children[k], S, S');
    }
    assert JoinsShow(n.AccountGroups, AllEdgeJoins(db, p, es)[i], S);
  }

  ghost function AllEdgeChildren(db: Store, p: AccountPlan, es: seq<AccountFields>): seq<seq<AccountTree>> {
    seq(|es|, i requires 0 <= i < |es| => EdgeChildren(db, p, es, i))
  }

  ghost function AllEdgeJoins(db: Store, p: AccountPlan, es: seq<AccountFields>): seq<seq<JoinTree>> {
    seq(|es|, i requires 0 <= i < |es| => EdgeJoins(db, p, es, i))
  }

  lemma ChildrenAreParts(db: Store, p: AccountPlan, es: seq<AccountFields>)
    requires p.children.Some?
    ensures var q := PushChildren(p.children.value, IDs(es));
            var rows := Exec(db.accounts, q.base);
            AllEdgeChildren(db, p, es) == PartsOf(Batch(db, q, rows), ParentKeys(DecodeAll(q, rows)), IDs(es))
  {
    hide Batch, Exec, DecodeAll, Part, PushChildren;
    var ids := IDs(es);
    var q := PushChildren(p.children.value, ids);
    var rows := Exec(db.accounts, q.base);
    forall i | 0 <= i < |es|
      ensures AllEdgeChildren(db, p, es)[i] == PartsOf(Batch(db, q, rows), ParentKeys(DecodeAll(q, rows)), ids)[i]
    {
      assert EdgeChildren(db, p, es, i) == BatchChildren(db, p.children.value, ids, ids[i]);
    }
  }

  lemma JoinsAreParts(db: Store, p: AccountPlan, es: seq<AccountFields>)
    requires p.accountGroups.Some?
    ensures var q := PushJoin(p.accountGroups.value, IDs(es));
            var rows := Exec(db.accountGroups, q.base);
            AllEdgeJoins(db, p, es) == PartsOf(JoinTrees(db, q, rows), JoinAccountKeys(DecodeJoins(q, rows)), IDs(es))
  {
    hide Exec, DecodeJoins, Part, PushJoin;
    var ids := IDs(es);
    var q := PushJoin(p.accountGroups.value, ids);
    var rows := Exec(db.accountGroups, q.base);
    forall i | 0 <= i < |es|
      ensures AllEdgeJoins(db, p, es)[i] ==
              PartsOf(JoinTrees(db, q, rows), JoinAccountKeys(DecodeJoins(q, rows)), ids)[i]
    {
      assert EdgeJoins(db, p, es, i) == BatchJoins(db, p.accountGroups.value, ids, ids[i]);
    }
  }

  ghost function EdgeParents(db: Store, p: AccountPlan, es: seq<AccountFields>): seq<Option<AccountTree>> {
    seq(|es|, i requires 0 <= i < |es| => EdgeParent(db, p, es, i))
  }

  lemma ParentsAreLatest(db: Store, p: AccountPlan, es: seq<AccountFields>)
    requires p.parent.Some?
    ensures var q := PushParent(p.parent.value, ParentKeys(es));
            var rows := Exec(db.accounts, q.base);
            EdgeParents(db, p, es) == LatestOf(IDs(DecodeAll(q, rows)), Batch(db, q, rows), ParentKeys(es))
  {
    hide Batch, Exec, DecodeAll, IDs, FirstUse, PushParent;
    var fks := ParentKeys(es);
    var q := PushParent(p.parent.value, fks);
    var rows := Exec(db.accounts, q.base);
    var ks, ts := IDs(DecodeAll(q, rows)), Batch(db, q, rows);
    forall i | 0 <= i < |es|
      ensures EdgeParents(db, p, es)[i] == LatestOf(ks, ts, fks)[i]
    {
      assert EdgeParent(db, p, es, i) == BatchParent(db, p.parent.value, fks, fks[i]);
    }
  }

  lemma NoParents(db: Store, p: AccountPlan, nodes: seq<Account>, es: seq<AccountFields>, S: set<object>)
    requires p.parent.Some? && FirstUse(ParentKeys(es)) == [] && |es| == |nodes|
    requires forall i :: 0 <= i < |nodes| ==> nodes[i].Parent == null
    ensures ParentsShow(nodes, EdgeParents(db, p, es), S)
  {
    hide Batch, Exec, DecodeAll, IDs, EdgeParents, PushParent, FirstUse, Latest;
    var q := PushParent(p.parent.value, ParentKeys(es));
    var rows := Exec(db.accounts, q.base);
    ParentsAreLatest(db, p, es);
    AllNull(ParentKeys(es));
    LatestNull(IDs(DecodeAll(q, rows)), Batch(db, q, rows), |rows|);
  }
}
