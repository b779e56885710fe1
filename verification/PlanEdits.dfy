/**
 What the builder calls do to a plan, what a clone keeps of it, and that a clone means the same.
 */
module PlanEdits {
  import opened Prelude
  import opened HashJoin
  import opened QueryPlans

  // ---------- Builder calls ----------

  /** One call on a query of the join entity. */
  datatype JoinOp =
    | Filter(predicates: seq<Predicate<JoinRow>>)
    | Limit(limit: nat)
    | Offset(offset: nat)
    | Order(terms: seq<OrderTerm>)
    | Select(fields: seq<string>)
    | Lock(modifier: Modifier)
    | WithGroup(group: Settings<GroupRow>)

  const FRESH_JOIN := JoinPlan(Settings([], [], None, None, []), [], None)

  function JoinEdit(op: JoinOp, q: JoinPlan): JoinPlan {
    match op
    case Filter(ps) => q.(base := q.base.(predicates := q.base.predicates + ps))
    case Limit(n) => q.(base := q.base.(limit := Some(n)))
    case Offset(n) => q.(base := q.base.(offset := Some(n)))
    case Order(terms) => q.(base := q.base.(order := q.base.order + terms))
    case Select(fields) => q.(fields := q.fields + fields)
    case Lock(m) => q.(base := q.base.(modifiers := q.base.modifiers + [m]))
    case WithGroup(g) => q.(group := Some(g))
  }

  function JoinEdits(ops: seq<JoinOp>, q: JoinPlan): JoinPlan
    decreases ops
  {
    if ops == [] then q else JoinEdits(ops[1..], JoinEdit(ops[0], q))
  }

  /** One call on an account query. The options of a With call are themselves calls, on the fresh sub-builder. */
  datatype Op =
    | Filter(predicates: seq<Predicate<AccountRow>>)
    | Limit(limit: nat)
    | Offset(offset: nat)
    | Order(terms: seq<OrderTerm>)
    | Select(fields: seq<string>)
    | Lock(modifier: Modifier)
    | WithGroups(groups: Settings<GroupRow>)
    | WithProxy(proxy: Settings<ProxyRow>)
    | WithParent(options: seq<Op>)
    | WithChildren(options: seq<Op>)
    | WithAccountGroups(calls: seq<JoinOp>)

  const FRESH := AccountPlan(Settings([], [], None, None, []), [], None, None, None, None, None)

  function Edit(op: Op, p: AccountPlan): AccountPlan
    decreases op, 1
  {
    match op
    case Filter(ps) => p.(base := p.base.(predicates := p.base.predicates + ps))
    case Limit(n) => p.(base := p.base.(limit := Some(n)))
    case Offset(n) => p.(base := p.base.(offset := Some(n)))
    case Order(terms) => p.(base := p.base.(order := p.base.order + terms))
    case Select(fields) => p.(fields := p.fields + fields)
    case Lock(m) => p.(base := p.base.(modifiers := p.base.modifiers + [m]))
    case WithGroups(q) => p.(groups := Some(q))
    case WithProxy(q) => p.(proxy := Some(q))
    case WithParent(options) => p.(parent := Some(Edits(options, FRESH)))
    case WithChildren(options) => p.(children := Some(Edits(options, FRESH)))
    case WithAccountGroups(calls) => p.(accountGroups := Some(JoinEdits(calls, FRESH_JOIN)))
  }

  function Edits(ops: seq<Op>, p: AccountPlan): AccountPlan
    decreases ops, 0
  {
    if ops == [] then p else Edits(ops[1..], Edit(ops[0], p))
  }

  // ---------- Calls and runs on two builders ----------

  /** What a caller does with a builder: calls on it, and runs over some store. */
  datatype Act = Call(op: Op) | Run(db: Store)

  function After(act: Act, p: AccountPlan): AccountPlan {
    match act
    case Call(op) => Edit(op, p)
    case Run(db) => AfterAll(db, p)
  }

  function AfterActs(acts: seq<Act>, p: AccountPlan): AccountPlan {
    if acts == [] then p else After(acts[|acts| - 1], AfterActs(acts[..|acts| - 1], p))
  }

  /** Of the acts on two builders, those on one of them. */
  function ActsOn(side: bool, acts: seq<(bool, Act)>): seq<Act> {
    if acts == [] then []
    else ActsOn(side, acts[..|acts| - 1]) + if acts[|acts| - 1].0 == side then [acts[|acts| - 1].1] else []
  }

  /** What the builder on one side has become after the first `i` acts. */
  function Become(side: bool, acts: seq<(bool, Act)>, i: nat, p: AccountPlan): AccountPlan
    requires i <= |acts|
  {
    AfterActs(ActsOn(side, acts[..i]), if side then UnlockedPlan(p) else p)
  }

  /** Each run is over a keyed store, on a builder whose group queries carry no join callback yet. */
  ghost predicate Runnable(acts: seq<(bool, Act)>, p: AccountPlan) {
    forall i :: 0 <= i < |acts| && acts[i].1.Run? ==> Keyed(acts[i].1.db) && FirstRun(Become(acts[i].0, acts, i, p))
  }

  lemma BecomeStart(acts: seq<(bool, Act)>, p: AccountPlan)
    ensures Become(false, acts, 0, p) == p && Become(true, acts, 0, p) == UnlockedPlan(p)
  {
  }

  lemma BecomeNext(acts: seq<(bool, Act)>, i: nat, p: AccountPlan)
    requires i < |acts|
    ensures Become(acts[i].0, acts, i + 1, p) == After(acts[i].1, Become(acts[i].0, acts, i, p))
    ensures Become(!acts[i].0, acts, i + 1, p) == Become(!acts[i].0, acts, i, p)
  {
    var side := acts[i].0;
    assert acts[..i + 1][..i] == acts[..i];
    var before := ActsOn(side, acts[..i]);
    assert ActsOn(side, acts[..i + 1]) == before + [acts[i].1];
    assert (before + [acts[i].1])[..|before|] == before;
    assert ActsOn(!side, acts[..i + 1]) == ActsOn(!side, acts[..i]) + [];
    assert ActsOn(!side, acts[..i]) + [] == ActsOn(!side, acts[..i]);
  }

  // ---------- What a clone keeps ----------

  function Unlocked<R>(q: Settings<R>): Settings<R> {
    q.(modifiers := [])
  }

  function UnlockedOption<R>(q: Option<Settings<R>>): Option<Settings<R>> {
    if q.None? then None else Some(Unlocked(q.value))
  }

  function UnlockedJoin(q: JoinPlan): JoinPlan {
    q.(base := Unlocked(q.base), group := UnlockedOption(q.group))
  }

  /** The plan without lock modifiers, at every level. */
  function UnlockedPlan(p: AccountPlan): (p': AccountPlan)
    ensures Depth(p') == Depth(p)
  {
    p.(base := Unlocked(p.base), groups := UnlockedOption(p.groups), proxy := UnlockedOption(p.proxy),
       parent := if p.parent.None? then None else Some(UnlockedPlan(p.parent.value)),
       children := if p.children.None? then None else Some(UnlockedPlan(p.children.value)),
       accountGroups := if p.accountGroups.None? then None else Some(UnlockedJoin(p.accountGroups.value)))
  }

  predicate NoLocks(p: AccountPlan) {
    && p.base.modifiers == []
    && (p.groups.Some? ==> p.groups.value.modifiers == [])
    && (p.proxy.Some? ==> p.proxy.value.modifiers == [])
    && (p.parent.Some? ==> NoLocks(p.parent.value))
    && (p.children.Some? ==> NoLocks(p.children.value))
    && (p.accountGroups.Some? ==> p.accountGroups.value.base.modifiers == [])
    && (p.accountGroups.Some? && p.accountGroups.value.group.Some? ==>
        p.accountGroups.value.group.value.modifiers == [])
  }

  /** A clone is the same builder exactly when no query of the tree locks rows. */
  lemma {:induction false} CloneIsSame(p: AccountPlan)
    ensures UnlockedPlan(p) == p <==> NoLocks(p)
  {
    if p.parent.Some? {
      CloneIsSame(p.parent.value);
    }
    if p.children.Some? {
      CloneIsSame(p.children.value);
    }
  }

  /** A query with FOR UPDATE: its clone has lost the lock. */
  lemma CloneDropsLock(p: AccountPlan)
    requires p.base.modifiers == [ForUpdate]
    ensures UnlockedPlan(p).base.modifiers == [] && UnlockedPlan(p) != p
  {
    CloneIsSame(p);
  }

  // ---------- A clone means the same ----------

  lemma ExecUnlocked<R(!new)>(table: Table<R>, q: Settings<R>)
    ensures Exec(table, Unlocked(q)) == Exec(table, q)
  {
  }

  lemma DecodedUnlocked(p: AccountPlan, rows: seq<AccountRow>)
    ensures DecodeAll(UnlockedPlan(p), rows) == DecodeAll(p, rows)
    ensures LoadedTypes(UnlockedPlan(p)) == LoadedTypes(p)
  {
    assert PlanColumns(UnlockedPlan(p)) == PlanColumns(p);
  }

  lemma PushUnlocked(q: AccountPlan, fks: seq<Option<int>>, ids: seq<int>)
    ensures UnlockedPlan(PushParent(q, fks)) == PushParent(UnlockedPlan(q), fks)
    ensures UnlockedPlan(PushChildren(q, ids)) == PushChildren(UnlockedPlan(q), ids)
  {
  }

  lemma {:induction false} ParentUnlocked(db: Store, q: AccountPlan, fks: seq<Option<int>>, fk: Option<int>)
    ensures BatchParent(db, UnlockedPlan(q), fks, fk) == BatchParent(db, q, fks, fk)
    decreases Depth(q), 3
  {
    hide Batch, Exec, UnlockedPlan, Latest, PushParent;
    var q' := PushParent(q, fks);
    var nb := Exec(db.accounts, q'.base);
    PushUnlocked(q, fks, []);
    BaseUnlocked(q');
    ExecUnlocked(db.accounts, q'.base);
    DecodedUnlocked(q', nb);
    CloneMeansSame(db, q', nb);
  }

  lemma BaseUnlocked(q: AccountPlan)
    ensures UnlockedPlan(q).base == Unlocked(q.base)
  {
  }

  lemma {:induction false} ChildrenUnlocked(db: Store, q: AccountPlan, ids: seq<int>, id: int)
    ensures BatchChildren(db, UnlockedPlan(q), ids, id) == BatchChildren(db, q, ids, id)
    decreases Depth(q), 3
  {
    hide Batch, Exec, UnlockedPlan, Part, PushChildren;
    var q' := PushChildren(q, ids);
    var nb := Exec(db.accounts, q'.base);
    PushUnlocked(q, [], ids);
    BaseUnlocked(q');
    ExecUnlocked(db.accounts, q'.base);
    DecodedUnlocked(q', nb);
    CloneMeansSame(db, q', nb);
  }

  lemma JoinsUnlocked(db: Store, q: JoinPlan, ids: seq<int>, id: int)
    ensures BatchJoins(db, UnlockedJoin(q), ids, id) == BatchJoins(db, q, ids, id)
  {
    var q' := PushJoin(q, ids);
    var nb := Exec(db.accountGroups, q'.base);
    assert PushJoin(UnlockedJoin(q), ids) == UnlockedJoin(q');
    assert JoinColumns(UnlockedJoin(q')) == JoinColumns(q');
    assert DecodeJoins(UnlockedJoin(q'), nb) == DecodeJoins(q', nb);
    assert JoinTrees(db, UnlockedJoin(q'), nb) == JoinTrees(db, q', nb);
  }

  lemma {:induction false} TreeUnlocked(db: Store, p: AccountPlan, rows: seq<AccountRow>, i: nat)
    requires i < |rows|
    ensures BatchTree(db, UnlockedPlan(p), rows, i) == BatchTree(db, p, rows, i)
    decreases Depth(p), 1
  {
    hide Batch, Exec, BatchParent, BatchChildren, BatchJoins, DecodeAll, FirstUse, Latest, GroupsOf, PairStream;
    var es := DecodeAll(p, rows);
    DecodedUnlocked(p, rows);
    if p.parent.Some? {
      ParentUnlocked(db, p.parent.value, ParentKeys(es), es[i].parentAccountId);
    }
    if p.children.Some? {
      ChildrenUnlocked(db, p.children.value, IDs(es), es[i].id);
    }
    if p.accountGroups.Some? {
      JoinsUnlocked(db, p.accountGroups.value, IDs(es), es[i].id);
    }
    if p.proxy.Some? {
      ExecUnlocked(db.proxies, PushProxy(p.proxy.value, ProxyKeys(es)));
    }
  }

  /** Run on the same store, a clone returns the same trees for the same rows; and it selects the same rows. */
  lemma {:induction false} CloneMeansSame(db: Store, p: AccountPlan, rows: seq<AccountRow>)
    ensures Exec(db.accounts, UnlockedPlan(p).base) == Exec(db.accounts, p.base)
    ensures Batch(db, UnlockedPlan(p), rows) == Batch(db, p, rows)
    decreases Depth(p), 2
  {
    ExecUnlocked(db.accounts, p.base);
    forall i | 0 <= i < |rows|
      ensures Batch(db, UnlockedPlan(p), rows)[i] == Batch(db, p, rows)[i]
    {
      TreeUnlocked(db, p, rows, i);
    }
  }

  lemma {:induction false} CloneFailsSame(db: Store, p: AccountPlan)
    ensures AllFails(db, UnlockedPlan(p)) <==> AllFails(db, p)
    decreases Depth(p)
  {
    hide Exec, FirstUse, PushParent, PushChildren, DecodeAll, ValidFields, AppendOnce;
    var rows := Exec(db.accounts, p.base);
    var es := DecodeAll(p, rows);
    ExecUnlocked(db.accounts, p.base);
    DecodedUnlocked(p, rows);
    if p.parent.Some? {
      PushUnlocked(p.parent.value, ParentKeys(es), []);
      CloneFailsSame(db, PushParent(p.parent.value, ParentKeys(es)));
    }
    if p.children.Some? {
      PushUnlocked(p.children.value, [], IDs(es));
      CloneFailsSame(db, PushChildren(p.children.value, IDs(es)));
    }
  }

  // ---------- First and Only ----------

  /** The rows that a query selects once its offset is passed, had it no limit. */
  function Remaining<R(!new)>(table: Table<R>, q: Settings<R>): seq<R> {
    Exec(table, q.(limit := None))
  }

  /** Only's limit of two is enough to tell none, one and several apart, whatever limit was set before. */
  lemma TwoTellApart<R(!new)>(table: Table<R>, q: Settings<R>)
    ensures var rows := Exec(table, q.(limit := Some(2)));
            var all := Remaining(table, q);
            rows <= all && (|rows| == 0 <==> |all| == 0) && (|rows| == 1 <==> |all| == 1) &&
                (|rows| == 2 <==> |all| >= 2)
  {
  }

  lemma OneIsFirst<R(!new)>(table: Table<R>, q: Settings<R>)
    ensures var rows := Exec(table, q.(limit := Some(1)));
            var all := Remaining(table, q);
            rows == if all == [] then [] else [all[0]]
  {
  }
}
