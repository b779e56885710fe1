/**
 What a query builder means, on values: the store it reads, the plan it stands for, the rows it selects,
 the object trees it must return, and the plan it has turned into after a run.
 */
module QueryPlans {
  import opened Prelude
  import opened HashJoin

  // ---------- The store ----------

  datatype OrderTerm = OrderTerm(column: string, descending: bool)

  /** A table, given as its rows in the order that a list of order terms imposes. */
  type Table<!R> = seq<OrderTerm> -> seq<R>

  /** A row of "accounts": the key, the two nullable foreign keys, every other column under its name. */
  datatype AccountRow = AccountRow(id: int, proxyId: Option<int>, parentAccountId: Option<int>,
                                   cells: map<string, string>)

  /** A row of "account_groups": the composite key and the other columns. */
  datatype JoinRow = JoinRow(accountId: int, groupId: int, cells: map<string, string>)

  /** Rows of "proxies" and "groups"; their queries are leaves here, so the row is also the entity. */
  datatype ProxyRow = ProxyRow(id: int, cells: map<string, string>)
  datatype GroupRow = GroupRow(id: int, cells: map<string, string>)

  datatype Store = Store(accounts: Table<AccountRow>, proxies: Table<ProxyRow>,
                         groups: Table<GroupRow>, accountGroups: Table<JoinRow>)

  function AccountId(r: AccountRow): Option<int> { Some(r.id) }
  function ParentColumn(r: AccountRow): Option<int> { r.parentAccountId }
  function ProxyId(r: ProxyRow): Option<int> { Some(r.id) }
  function GroupId(r: GroupRow): Option<int> { Some(r.id) }
  function JoinAccountColumn(r: JoinRow): Option<int> { Some(r.accountId) }

  function Keys<R>(column: R -> Option<int>, rows: seq<R>): (ks: seq<Option<int>>)
    ensures |ks| == |rows| && forall i :: 0 <= i < |rows| ==> ks[i] == column(rows[i])
  {
    seq(|rows|, i requires 0 <= i < |rows| => column(rows[i]))
  }

  ghost predicate DistinctKeys<R>(column: R -> Option<int>, rows: seq<R>) {
    forall i, j :: 0 <= i < j < |rows| ==> column(rows[i]) != column(rows[j])
  }

  ghost predicate SameRows<R(!new)>(a: seq<R>, b: seq<R>) {
    forall r :: r in a <==> r in b
  }

  /** What the database guarantees: primary keys are unique, and ordering only rearranges rows. */
  ghost predicate Keyed(db: Store) {
    && (forall o :: DistinctKeys(AccountId, db.accounts(o)) && SameRows(db.accounts(o), db.accounts([])))
    && (forall o :: DistinctKeys(ProxyId, db.proxies(o)) && SameRows(db.proxies(o), db.proxies([])))
    && (forall o :: DistinctKeys(GroupId, db.groups(o)) && SameRows(db.groups(o), db.groups([])))
    && (forall o :: SameRows(db.accountGroups(o), db.accountGroups([])))
  }

  // ---------- Plans ----------

  /** A WHERE callback: a caller's condition, the IN condition an edge loader pushes, or the join with
      "account_groups" that the M2M loader pushes into a group query. */
  datatype Predicate<!R> =
    | Where(test: R -> bool)
    | InValues(column: R -> Option<int>, values: seq<int>)
    | JoinAccounts(accounts: seq<int>)

  /** NULL is in no list. The join restricts pairs (see ExecPairs), not a row on its own. */
  predicate Holds<R>(p: Predicate<R>, r: R) {
    match p
    case Where(test) => test(r)
    case InValues(column, values) => column(r).Some? && column(r).value in values
    case JoinAccounts(_) => true
  }

  predicate Passes<R>(ps: seq<Predicate<R>>, r: R) {
    forall k :: 0 <= k < |ps| ==> Holds(ps[k], r)
  }

  datatype Modifier = ForUpdate | ForShare

  /** The part of a builder that every entity's query has. */
  datatype Settings<!R> = Settings(predicates: seq<Predicate<R>>, order: seq<OrderTerm>,
                                   limit: Option<nat>, offset: Option<nat>, modifiers: seq<Modifier>)

  datatype JoinPlan = JoinPlan(base: Settings<JoinRow>, fields: seq<string>, group: Option<Settings<GroupRow>>)

  /** A tree of account queries; an absent edge is one that was not requested. */
  datatype AccountPlan = AccountPlan(base: Settings<AccountRow>, fields: seq<string>,
                                     groups: Option<Settings<GroupRow>>, proxy: Option<Settings<ProxyRow>>,
                                     parent: Option<AccountPlan>, children: Option<AccountPlan>,
                                     accountGroups: Option<JoinPlan>)

  predicate Joined<R>(q: Settings<R>) {
    exists k :: 0 <= k < |q.predicates| && q.predicates[k].JoinAccounts?
  }

  /** No group query of the plan carries a join callback yet: a builder with WithGroups was not run before. */
  predicate FirstRun(p: AccountPlan) {
    && (p.groups.Some? ==> !Joined(p.groups.value))
    && (p.parent.Some? ==> FirstRun(p.parent.value))
    && (p.children.Some? ==> FirstRun(p.children.value))
  }

  function Depth(p: AccountPlan): nat {
    var up := if p.parent.Some? then Depth(p.parent.value) + 1 else 0;
    var down := if p.children.Some? then Depth(p.children.value) + 1 else 0;
    if up < down then down else up
  }

  // ---------- Running one query ----------

  function Select<R(!new)>(ps: seq<Predicate<R>>, rows: seq<R>): (s: seq<R>)
    ensures forall r :: r in s <==> r in rows && Passes(ps, r)
  {
    if rows == [] then []
    else
      var last := |rows| - 1;
      assert rows == rows[..last] + [rows[last]];
      Select(ps, rows[..last]) + if Passes(ps, rows[last]) then [rows[last]] else []
  }

  /** LIMIT and OFFSET. In the query specification zero stands for absent. */
  function Window<R(!new)>(rows: seq<R>, limit: Option<nat>, offset: Option<nat>): (w: seq<R>)
    ensures forall r :: r in w ==> r in rows
    ensures limit.None? && offset.None? ==> w == rows
  {
    var from := if offset.Some? then offset.value else 0;
    var rest := if from <= |rows| then rows[from..] else [];
    if limit.None? || limit.value == 0 || |rest| <= limit.value then rest else rest[..limit.value]
  }

  function Exec<R(!new)>(table: Table<R>, q: Settings<R>): (rows: seq<R>)
    ensures forall r :: r in rows ==> r in table(q.order) && Passes(q.predicates, r)
  {
    Window(Select(q.predicates, table(q.order)), q.limit, q.offset)
  }

  // ---------- Projection ----------

  const ID := "id"
  const PROXY_ID := "proxy_id"
  const PARENT_ACCOUNT_ID := "parent_account_id"
  const ACCOUNT_ID := "account_id"
  const GROUP_ID := "group_id"

  const ACCOUNT_COLUMNS: seq<string> := [
    ID, "created_at", "updated_at", "deleted_at", "name", "notes", "platform", "type", "credentials", "extra",
    PROXY_ID, "proxy_fallback_origin_id", "concurrency", "load_factor", "priority", "rate_multiplier", "status",
    "error_message", "last_used_at", "expires_at", "auto_pause_on_expired", "schedulable", "rate_limited_at",
    "rate_limit_reset_at", "overload_until", "temp_unschedulable_until", "temp_unschedulable_reason",
    "session_window_start", "session_window_end", "session_window_status", PARENT_ACCOUNT_ID, "quota_dimension"]

  const JOIN_COLUMNS: seq<string> := [ACCOUNT_ID, GROUP_ID, "priority", "created_at"]

  predicate ValidFields(fields: seq<string>, columns: seq<string>) {
    forall i :: 0 <= i < |fields| ==> fields[i] in columns
  }

  function AppendOnce(fields: seq<string>, f: string): seq<string> {
    if f in fields then fields else fields + [f]
  }

  function Without(fields: seq<string>, f: string): (fs: seq<string>)
    ensures forall c :: c in fs <==> c in fields && c != f
  {
    if fields == [] then []
    else
      var last := |fields| - 1;
      assert fields == fields[..last] + [fields[last]];
      Without(fields[..last], f) + if fields[last] != f then [fields[last]] else []
  }

  /** The columns that querySpec selects for an account query. */
  function Columns(fields: seq<string>, withProxy: bool, withParent: bool): seq<string> {
    if fields == [] then ACCOUNT_COLUMNS
    else
      var cols := [ID] + Without(fields, ID);
      var cols := if withProxy then AppendOnce(cols, PROXY_ID) else cols;
      if withParent then AppendOnce(cols, PARENT_ACCOUNT_ID) else cols
  }

  function PlanColumns(p: AccountPlan): seq<string> {
    Columns(p.fields, p.proxy.Some?, p.parent.Some?)
  }

  function JoinColumns(p: JoinPlan): seq<string> {
    if p.fields == [] then JOIN_COLUMNS
    else if p.group.Some? then AppendOnce(p.fields, GROUP_ID) else p.fields
  }

  /** The scalar part of an account entity; a column that is not selected keeps its zero value. */
  datatype AccountFields = AccountFields(id: int, proxyId: Option<int>, parentAccountId: Option<int>,
      values: map<string, string>)

  function Decode(cols: seq<string>, r: AccountRow): AccountFields {
    AccountFields(if ID in cols then r.id else 0,
                  if PROXY_ID in cols then r.proxyId else None,
                  if PARENT_ACCOUNT_ID in cols then r.parentAccountId else None,
                  map c | c in cols && c in r.cells :: r.cells[c])
  }

  datatype JoinFields = JoinFields(accountId: int, groupId: int, values: map<string, string>)

  function DecodeJoin(cols: seq<string>, r: JoinRow): JoinFields {
    JoinFields(if ACCOUNT_ID in cols then r.accountId else 0,
               if GROUP_ID in cols then r.groupId else 0,
               map c | c in cols && c in r.cells :: r.cells[c])
  }

  function DecodeAll(p: AccountPlan, rows: seq<AccountRow>): (es: seq<AccountFields>)
    ensures |es| == |rows| && forall i :: 0 <= i < |rows| ==> es[i] == Decode(PlanColumns(p), rows[i])
  {
    seq(|rows|, i requires 0 <= i < |rows| => Decode(PlanColumns(p), rows[i]))
  }

  function DecodeJoins(p: JoinPlan, rows: seq<JoinRow>): (es: seq<JoinFields>)
    ensures |es| == |rows| && forall i :: 0 <= i < |rows| ==> es[i] == DecodeJoin(JoinColumns(p), rows[i])
  {
    seq(|rows|, i requires 0 <= i < |rows| => DecodeJoin(JoinColumns(p), rows[i]))
  }

  // The key lists that the loaders read off the decoded nodes.

  function IDs(es: seq<AccountFields>): (ks: seq<int>)
    ensures |ks| == |es| && forall i :: 0 <= i < |es| ==> ks[i] == es[i].id
  {
    seq(|es|, i requires 0 <= i < |es| => es[i].id)
  }

  function ProxyKeys(es: seq<AccountFields>): (ks: seq<Option<int>>)
    ensures |ks| == |es| && forall i :: 0 <= i < |es| ==> ks[i] == es[i].proxyId
  {
    seq(|es|, i requires 0 <= i < |es| => es[i].proxyId)
  }

  function ParentKeys(es: seq<AccountFields>): (ks: seq<Option<int>>)
    ensures |ks| == |es| && forall i :: 0 <= i < |es| ==> ks[i] == es[i].parentAccountId
  {
    seq(|es|, i requires 0 <= i < |es| => es[i].parentAccountId)
  }

  function JoinAccountKeys(es: seq<JoinFields>): (ks: seq<Option<int>>)
    ensures |ks| == |es| && forall i :: 0 <= i < |es| ==> ks[i] == Some(es[i].accountId)
  {
    seq(|es|, i requires 0 <= i < |es| => Some(es[i].accountId))
  }

  function JoinGroupKeys(es: seq<JoinFields>): (ks: seq<Option<int>>)
    ensures |ks| == |es| && forall i :: 0 <= i < |es| ==> ks[i] == Some(es[i].groupId)
  {
    seq(|es|, i requires 0 <= i < |es| => Some(es[i].groupId))
  }

  function ProxyIDs(rows: seq<ProxyRow>): (ks: seq<int>)
    ensures |ks| == |rows| && forall i :: 0 <= i < |rows| ==> ks[i] == rows[i].id
  {
    seq(|rows|, i requires 0 <= i < |rows| => rows[i].id)
  }

  function GroupIDs(rows: seq<GroupRow>): (ks: seq<int>)
    ensures |ks| == |rows| && forall i :: 0 <= i < |rows| ==> ks[i] == rows[i].id
  {
    seq(|rows|, i requires 0 <= i < |rows| => rows[i].id)
  }

  // ---------- What a loader pushes into its sub-query ----------

  function Push<R>(q: Settings<R>, p: Predicate<R>): Settings<R> {
    q.(predicates := q.predicates + [p])
  }

  lemma PushedHolds<R(!new)>(table: Table<R>, q: Settings<R>, p: Predicate<R>)
    ensures forall r :: r in Exec(table, Push(q, p)) ==> Holds(p, r)
  {
    var ps := Push(q, p).predicates;
    assert ps[|ps| - 1] == p;
  }

  function PushProxy(q: Settings<ProxyRow>, fks: seq<Option<int>>): Settings<ProxyRow> {
    Push(q, InValues(ProxyId, FirstUse(fks)))
  }

  function PushGroup(q: Settings<GroupRow>, fks: seq<Option<int>>): Settings<GroupRow> {
    Push(q, InValues(GroupId, FirstUse(fks)))
  }

  function PushParent(q: AccountPlan, fks: seq<Option<int>>): (q': AccountPlan)
    ensures Depth(q') == Depth(q)
  {
    q.(base := Push(q.base, InValues(AccountId, FirstUse(fks))))
  }

  function PushChildren(q: AccountPlan, ids: seq<int>): (q': AccountPlan)
    ensures Depth(q') == Depth(q)
  {
    q.(fields := if q.fields == [] then [] else AppendOnce(q.fields, PARENT_ACCOUNT_ID),
       base := Push(q.base, InValues(ParentColumn, ids)))
  }

  function PushJoin(q: JoinPlan, ids: seq<int>): JoinPlan {
    q.(fields := if q.fields == [] then [] else AppendOnce(q.fields, ACCOUNT_ID),
       base := Push(q.base, InValues(JoinAccountColumn, ids)))
  }

  // ---------- The M2M row stream ----------

  /** One row of the joined group query: the account key in front, then the group. */
  datatype PairRow = PairRow(accountId: int, group: GroupRow)

  function PairsOf(g: GroupRow, joins: seq<JoinRow>, ids: seq<int>): seq<PairRow> {
    if joins == [] then []
    else
      var j := joins[|joins| - 1];
      PairsOf(g, joins[..|joins| - 1], ids) + if j.groupId == g.id && j.accountId in ids
          then [PairRow(j.accountId, g)] else []
  }

  function PairStream(groups: seq<GroupRow>, joins: seq<JoinRow>, ids: seq<int>): seq<PairRow> {
    if groups == [] then []
    else PairStream(groups[..|groups| - 1], joins, ids) + PairsOf(groups[|groups| - 1], joins, ids)
  }

  function ExecPairs(db: Store, q: Settings<GroupRow>, ids: seq<int>): seq<PairRow> {
    Window(PairStream(Select(q.predicates, db.groups(q.order)), db.accountGroups([]), ids), q.limit, q.offset)
  }

  predicate HasGroup(gs: seq<GroupRow>, id: int) {
    exists i :: 0 <= i < |gs| && gs[i].id == id
  }

  /** The groups of a stream, each at its first appearance. */
  function Neighbors(stream: seq<PairRow>): seq<GroupRow> {
    if stream == [] then []
    else
      var gs := Neighbors(stream[..|stream| - 1]);
      var g := stream[|stream| - 1].group;
      if HasGroup(gs, g.id) then gs else gs + [g]
  }

  predicate Paired(stream: seq<PairRow>, account: int, group: int) {
    exists i :: 0 <= i < |stream| && stream[i].accountId == account && stream[i].group.id == group
  }

  function KeepPaired(gs: seq<GroupRow>, stream: seq<PairRow>, account: int): seq<GroupRow> {
    if gs == [] then []
    else
      var g := gs[|gs| - 1];
      KeepPaired(gs[..|gs| - 1], stream, account) + if Paired(stream, account, g.id) then [g] else []
  }

  /** The groups a stream gives an account: those paired with it, in the order of first appearance. */
  function GroupsOf(stream: seq<PairRow>, account: int): seq<GroupRow> {
    KeepPaired(Neighbors(stream), stream, account)
  }

  lemma HasGroupLast(gs: seq<GroupRow>)
    requires gs != []
    ensures forall id :: HasGroup(gs, id) <==> HasGroup(gs[..|gs| - 1], id) || gs[|gs| - 1].id == id
  {
    var init := gs[..|gs| - 1];
    assert gs == init + [gs[|gs| - 1]];
    assert forall i :: 0 <= i < |init| ==> init[i] == gs[i];
  }

  lemma PairedLast(stream: seq<PairRow>, account: int, group: int)
    requires stream != []
    ensures var last := |stream| - 1;
            Paired(stream, account, group) <==>
            Paired(stream[..last], account, group) ||
                (stream[last].accountId == account && stream[last].group.id == group)
  {
    var init := stream[..|stream| - 1];
    assert forall i :: 0 <= i < |init| ==> init[i] == stream[i];
  }

  lemma {:induction false} NotPaired(stream: seq<PairRow>, account: int, group: int)
    requires !HasGroup(Neighbors(stream), group)
    ensures !Paired(stream, account, group)
  {
    if stream != [] {
      var last := |stream| - 1;
      var gs := Neighbors(stream[..last]) + [stream[last].group];
      HasGroupLast(gs);
      assert gs[..|gs| - 1] == Neighbors(stream[..last]);
      NotPaired(stream[..last], account, group);
      PairedLast(stream, account, group);
    }
  }

  // ---------- The object trees that a run returns ----------

  datatype Loaded = Loaded(groups: bool, proxy: bool, parent: bool, children: bool, accountGroups: bool)

  datatype JoinTree = JoinTree(entity: JoinFields, loadedGroup: bool, group: Option<GroupRow>)

  datatype AccountTree = AccountTree(entity: AccountFields, loaded: Loaded, groups: seq<GroupRow>,
                                     proxy: Option<ProxyRow>, parent: Option<AccountTree>,
                                     children: seq<AccountTree>, accountGroups: seq<JoinTree>)

  /** What the OrErr accessors report of a unique edge. */
  datatype EdgeResult<+T> = Found(value: T) | NotFound | NotLoaded

  function LoadedTypes(p: AccountPlan): Loaded {
    Loaded(p.groups.Some?, p.proxy.Some?, p.parent.Some?, p.children.Some?, p.accountGroups.Some?)
  }

  /** The proxy a batch of nodes with foreign keys `fks` gives the node whose key is `fk`. */
  function BatchProxy(db: Store, q: Settings<ProxyRow>, fks: seq<Option<int>>, fk: Option<int>): Option<ProxyRow> {
    var nb := Exec(db.proxies, PushProxy(q, fks));
    Latest(ProxyIDs(nb), nb, |nb|, fk)
  }

  function BatchGroup(db: Store, q: Settings<GroupRow>, fks: seq<Option<int>>, fk: Option<int>): Option<GroupRow> {
    var nb := Exec(db.groups, PushGroup(q, fks));
    Latest(GroupIDs(nb), nb, |nb|, fk)
  }

  function JoinTrees(db: Store, p: JoinPlan, rows: seq<JoinRow>): (ts: seq<JoinTree>)
    ensures |ts| == |rows|
  {
    var es := DecodeJoins(p, rows);
    seq(|rows|, i requires 0 <= i < |rows| =>
      JoinTree(es[i], p.group.Some?,
               if p.group.None? then None else BatchGroup(db, p.group.value, JoinGroupKeys(es), Some(es[i].groupId))))
  }

  function BatchJoins(db: Store, q: JoinPlan, ids: seq<int>, id: int): seq<JoinTree> {
    var q := PushJoin(q, ids);
    var nb := Exec(db.accountGroups, q.base);
    Part(JoinTrees(db, q, nb), JoinAccountKeys(DecodeJoins(q, nb)), id)
  }

  function BatchParent(db: Store, q: AccountPlan, fks: seq<Option<int>>, fk: Option<int>): Option<AccountTree>
    decreases Depth(q), 3
  {
    var q' := PushParent(q, fks);
    var nb := Exec(db.accounts, q'.base);
    Latest(IDs(DecodeAll(q', nb)), Batch(db, q', nb), |nb|, fk)
  }

  function BatchChildren(db: Store, q: AccountPlan, ids: seq<int>, id: int): seq<AccountTree>
    decreases Depth(q), 3
  {
    var q' := PushChildren(q, ids);
    var nb := Exec(db.accounts, q'.base);
    Part(Batch(db, q', nb), ParentKeys(DecodeAll(q', nb)), id)
  }

  // The edges of a batch of decoded nodes, requested or not.

  function EdgeGroups(db: Store, p: AccountPlan, es: seq<AccountFields>, i: nat): seq<GroupRow>
    requires i < |es|
  {
    if p.groups.None? then [] else GroupsOf(ExecPairs(db, p.groups.value, IDs(es)), es[i].id)
  }

  function EdgeProxy(db: Store, p: AccountPlan, es: seq<AccountFields>, i: nat): Option<ProxyRow>
    requires i < |es|
  {
    if p.proxy.None? then None else BatchProxy(db, p.proxy.value, ProxyKeys(es), es[i].proxyId)
  }

  function EdgeParent(db: Store, p: AccountPlan, es: seq<AccountFields>, i: nat): Option<AccountTree>
    requires i < |es|
    decreases Depth(p), 0
  {
    if p.parent.None? then None else BatchParent(db, p.parent.value, ParentKeys(es), es[i].parentAccountId)
  }

  function EdgeChildren(db: Store, p: AccountPlan, es: seq<AccountFields>, i: nat): seq<AccountTree>
    requires i < |es|
    decreases Depth(p), 0
  {
    if p.children.None? then [] else BatchChildren(db, p.children.value, IDs(es), es[i].id)
  }

  function EdgeJoins(db: Store, p: AccountPlan, es: seq<AccountFields>, i: nat): seq<JoinTree>
    requires i < |es|
  {
    if p.accountGroups.None? then [] else BatchJoins(db, p.accountGroups.value, IDs(es), es[i].id)
  }

  /** The tree of the i-th node of a batch. */
  function BatchTree(db: Store, p: AccountPlan, rows: seq<AccountRow>, i: nat): AccountTree
    requires i < |rows|
    decreases Depth(p), 1
  {
    var es := DecodeAll(p, rows);
    AccountTree(es[i], LoadedTypes(p), EdgeGroups(db, p, es, i), EdgeProxy(db, p, es, i), EdgeParent(db, p, es, i),
                EdgeChildren(db, p, es, i), EdgeJoins(db, p, es, i))
  }

  /** The trees of a whole batch: one sub-query an edge, whatever the number of nodes. */
  function Batch(db: Store, p: AccountPlan, rows: seq<AccountRow>): (ts: seq<AccountTree>)
    ensures |ts| == |rows|
    decreases Depth(p), 2
  {
    seq(|rows|, i requires 0 <= i < |rows| => BatchTree(db, p, rows, i))
  }

  // ---------- The plan after a run, and the runs that fail ----------

  function AfterGroups(p: AccountPlan, es: seq<AccountFields>): Option<Settings<GroupRow>> {
    if p.groups.None? then None else Some(Push(p.groups.value, JoinAccounts(IDs(es))))
  }

  function AfterProxy(p: AccountPlan, es: seq<AccountFields>): Option<Settings<ProxyRow>> {
    if p.proxy.None? || FirstUse(ProxyKeys(es)) == [] then p.proxy else Some(PushProxy(p.proxy.value, ProxyKeys(es)))
  }

  function AfterParent(db: Store, p: AccountPlan, es: seq<AccountFields>): Option<AccountPlan>
    decreases Depth(p), 0
  {
    if p.parent.None? || FirstUse(ParentKeys(es)) == [] then p.parent
    else Some(AfterAll(db, PushParent(p.parent.value, ParentKeys(es))))
  }

  function AfterChildren(db: Store, p: AccountPlan, es: seq<AccountFields>): Option<AccountPlan>
    decreases Depth(p), 0
  {
    if p.children.None? then None else Some(AfterAll(db, PushChildren(p.children.value, IDs(es))))
  }

  function AfterJoins(db: Store, p: AccountPlan, es: seq<AccountFields>): Option<JoinPlan> {
    if p.accountGroups.None? then None else Some(AfterJoinAll(db, PushJoin(p.accountGroups.value, IDs(es))))
  }

  function AfterJoinAll(db: Store, q: JoinPlan): JoinPlan {
    var rows := Exec(db.accountGroups, q.base);
    if JoinFails(q) || rows == [] || q.group.None? then q
    else q.(group := Some(PushGroup(q.group.value, JoinGroupKeys(DecodeJoins(q, rows)))))
  }

  /**
   The plan after the edges of a batch: each sub-query that was reached keeps what was pushed into it. An edge that
   fails, and with it the run, leaves those after it untouched.
   */
  function AfterEdges(db: Store, p: AccountPlan, es: seq<AccountFields>): AccountPlan
    decreases Depth(p), 1
  {
    p.(groups := AfterGroups(p, es), proxy := AfterProxy(p, es), parent := AfterParent(db, p, es),
       children := if ParentFails(db, p, es) then p.children else AfterChildren(db, p, es),
       accountGroups := if ParentFails(db, p, es) || ChildrenFail(db, p, es) then p.accountGroups
           else AfterJoins(db, p, es))
  }

  /** The plan that a run leaves behind, whether it succeeds or fails. */
  function AfterAll(db: Store, p: AccountPlan): AccountPlan
    decreases Depth(p), 2
  {
    var rows := Exec(db.accounts, p.base);
    if !ValidFields(p.fields, ACCOUNT_COLUMNS) || rows == [] then p else AfterEdges(db, p, DecodeAll(p, rows))
  }

  predicate ParentFails(db: Store, p: AccountPlan, es: seq<AccountFields>)
    decreases Depth(p), 0
  {
    p.parent.Some? && FirstUse(ParentKeys(es)) != [] && AllFails(db, PushParent(p.parent.value, ParentKeys(es)))
  }

  predicate ChildrenFail(db: Store, p: AccountPlan, es: seq<AccountFields>)
    decreases Depth(p), 0
  {
    p.children.Some? && AllFails(db, PushChildren(p.children.value, IDs(es)))
  }

  predicate JoinFails(q: JoinPlan) {
    !ValidFields(q.fields, JOIN_COLUMNS)
  }

  predicate JoinsFail(p: AccountPlan, es: seq<AccountFields>) {
    p.accountGroups.Some? && JoinFails(PushJoin(p.accountGroups.value, IDs(es)))
  }

  /** A run fails only on a selected field that is not a column of a query that is reached. */
  predicate AllFails(db: Store, p: AccountPlan)
    decreases Depth(p), 1
  {
    || !ValidFields(p.fields, ACCOUNT_COLUMNS)
    || (var rows := Exec(db.accounts, p.base);
        var es := DecodeAll(p, rows);
        rows != [] && (ParentFails(db, p, es) || ChildrenFail(db, p, es) || JoinsFail(p, es)))
  }

  // ---------- How many queries a run sends to the database ----------

  function SentGroups(p: AccountPlan): nat {
    if p.groups.Some? then 1 else 0
  }

  function SentProxy(p: AccountPlan, es: seq<AccountFields>): nat {
    if p.proxy.None? || FirstUse(ProxyKeys(es)) == [] then 0 else 1
  }

  function SentParent(db: Store, p: AccountPlan, es: seq<AccountFields>): nat
    decreases Depth(p), 0
  {
    if p.parent.None? || FirstUse(ParentKeys(es)) == [] then 0 else Sent(db, PushParent(p.parent.value, ParentKeys(es)))
  }

  function SentChildren(db: Store, p: AccountPlan, es: seq<AccountFields>): nat
    decreases Depth(p), 0
  {
    if p.children.None? then 0 else Sent(db, PushChildren(p.children.value, IDs(es)))
  }

  function SentJoins(db: Store, p: AccountPlan, es: seq<AccountFields>): nat {
    if p.accountGroups.None? then 0 else SentJoinRun(db, PushJoin(p.accountGroups.value, IDs(es)))
  }

  function SentJoinRun(db: Store, q: JoinPlan): nat {
    if JoinFails(q) then 0 else if Exec(db.accountGroups, q.base) == [] || q.group.None? then 1 else 2
  }

  /** An edge that fails keeps those after it from being queried. */
  function SentLater(db: Store, p: AccountPlan, es: seq<AccountFields>): nat
    decreases Depth(p), 1
  {
    SentChildren(db, p, es) + if ChildrenFail(db, p, es) then 0 else SentJoins(db, p, es)
  }

  function SentEdges(db: Store, p: AccountPlan, es: seq<AccountFields>): nat
    decreases Depth(p), 2
  {
    SentGroups(p) + SentProxy(p, es) + SentParent(db, p, es) +
    if ParentFails(db, p, es) then 0 else SentLater(db, p, es)
  }

  function Sent(db: Store, p: AccountPlan): nat
    decreases Depth(p), 3
  {
    var rows := Exec(db.accounts, p.base);
    if !ValidFields(p.fields, ACCOUNT_COLUMNS) then 0
    else if rows == [] then 1
    else 1 + SentEdges(db, p, DecodeAll(p, rows))
  }

  /** The queries of a plan: its own and one for each edge, at every level. */
  function QueriesIn(p: AccountPlan): nat {
    1 + (if p.groups.Some? then 1 else 0) + (if p.proxy.Some? then 1 else 0)
    + (if p.parent.Some? then QueriesIn(p.parent.value) else 0)
    + (if p.children.Some? then QueriesIn(p.children.value) else 0)
    + if p.accountGroups.None? then 0 else if p.accountGroups.value.group.None? then 1 else 2
  }

  lemma PushedQueries(q: AccountPlan, fks: seq<Option<int>>, ids: seq<int>)
    ensures QueriesIn(PushParent(q, fks)) == QueriesIn(PushChildren(q, ids)) == QueriesIn(q)
  {
  }

  lemma EdgesSentOnce(db: Store, p: AccountPlan, es: seq<AccountFields>)
    requires SentParent(db, p, es) <= if p.parent.Some? then QueriesIn(p.parent.value) else 0
    requires SentChildren(db, p, es) <= if p.children.Some? then QueriesIn(p.children.value) else 0
    ensures SentEdges(db, p, es) < QueriesIn(p)
  {
    hide SentParent, SentChildren, ParentFails, ChildrenFail, Exec, FirstUse, PushJoin;
    if p.accountGroups.Some? {
      JoinGroupKept(p, es);
    }
  }

  lemma JoinGroupKept(p: AccountPlan, es: seq<AccountFields>)
    requires p.accountGroups.Some?
    ensures PushJoin(p.accountGroups.value, IDs(es)).group == p.accountGroups.value.group
  {
  }

  /** However many rows a run loads, it sends each query of its plan at most once. */
  lemma {:induction false} EachSentOnce(db: Store, p: AccountPlan)
    ensures Sent(db, p) <= QueriesIn(p)
    decreases Depth(p)
  {
    hide Exec, FirstUse, PushParent, PushChildren, DecodeAll, ValidFields, SentEdges;
    var es := DecodeAll(p, Exec(db.accounts, p.base));
    if p.parent.Some? {
      PushedQueries(p.parent.value, ParentKeys(es), []);
      EachSentOnce(db, PushParent(p.parent.value, ParentKeys(es)));
    }
    if p.children.Some? {
      PushedQueries(p.children.value, [], IDs(es));
      EachSentOnce(db, PushChildren(p.children.value, IDs(es)));
    }
    EdgesSentOnce(db, p, es);
  }

  // ---------- Keys that the loaders rely on ----------

  lemma ColumnsHoldKeys(fields: seq<string>, withProxy: bool, withParent: bool)
    ensures ID in Columns(fields, withProxy, withParent)
    ensures withProxy ==> PROXY_ID in Columns(fields, withProxy, withParent)
    ensures withParent ==> PARENT_ACCOUNT_ID in Columns(fields, withProxy, withParent)
    ensures PARENT_ACCOUNT_ID in fields || fields == [] ==> PARENT_ACCOUNT_ID in Columns(fields, withProxy, withParent)
  {
    assert ACCOUNT_COLUMNS[0] == ID && ACCOUNT_COLUMNS[10] == PROXY_ID && ACCOUNT_COLUMNS[30] == PARENT_ACCOUNT_ID;
    assert ([ID] + Without(fields, ID))[0] == ID;
  }

  lemma {:induction false} SelectDistinct<R(!new)>(column: R -> Option<int>, ps: seq<Predicate<R>>, rows: seq<R>)
    requires DistinctKeys(column, rows)
    ensures DistinctKeys(column, Select(ps, rows))
  {
    if rows != [] {
      var last := |rows| - 1;
      SelectDistinct(column, ps, rows[..last]);
      var s := Select(ps, rows[..last]);
      forall i | 0 <= i < |s| ensures column(s[i]) != column(rows[last]) {
        assert s[i] in rows[..last];
      }
    }
  }

  lemma ExecDistinct<R(!new)>(column: R -> Option<int>, table: Table<R>, q: Settings<R>)
    requires DistinctKeys(column, table(q.order))
    ensures DistinctKeys(column, Exec(table, q))
  {
    SelectDistinct(column, q.predicates, table(q.order));
  }

  lemma {:induction false} PairsInBatch(groups: seq<GroupRow>, joins: seq<JoinRow>, ids: seq<int>)
    ensures forall p :: p in PairStream(groups, joins, ids) ==> p.accountId in ids
  {
    if groups != [] {
      PairsInBatch(groups[..|groups| - 1], joins, ids);
      PairsOfInBatch(groups[|groups| - 1], joins, ids);
    }
  }

  lemma {:induction false} PairsOfInBatch(g: GroupRow, joins: seq<JoinRow>, ids: seq<int>)
    ensures forall p :: p in PairsOf(g, joins, ids) ==> p.accountId in ids
  {
    if joins != [] {
      PairsOfInBatch(g, joins[..|joins| - 1], ids);
    }
  }

  lemma StreamInBatch(db: Store, q: Settings<GroupRow>, ids: seq<int>)
    ensures forall p :: p in ExecPairs(db, q, ids) ==> p.accountId in ids
  {
    PairsInBatch(Select(q.predicates, db.groups(q.order)), db.accountGroups([]), ids);
  }

  lemma BatchIDsDistinct(db: Store, p: AccountPlan)
    requires Keyed(db)
    ensures Distinct(IDs(DecodeAll(p, Exec(db.accounts, p.base))))
  {
    var rows := Exec(db.accounts, p.base);
    ExecDistinct(AccountId, db.accounts, p.base);
    ColumnsHoldKeys(p.fields, p.proxy.Some?, p.parent.Some?);
    assert forall i :: 0 <= i < |rows| ==> AccountId(rows[i]) == Some(rows[i].id);
  }

  // ---------- Why no loader meets an unexpected row ----------

  lemma AllNull(fks: seq<Option<int>>)
    requires FirstUse(fks) == []
    ensures forall i :: 0 <= i < |fks| ==> fks[i] == None
  {
    assert forall i :: 0 <= i < |fks| ==> fks[i] in fks;
    assert forall i :: 0 <= i < |fks| && fks[i].Some? ==> fks[i].value in FirstUse(fks);
  }

  lemma FirstRunParts(p: AccountPlan)
    requires FirstRun(p)
    ensures p.groups.Some? ==> !Joined(p.groups.value)
    ensures p.parent.Some? ==> FirstRun(p.parent.value)
    ensures p.children.Some? ==> FirstRun(p.children.value)
  {
  }

  lemma PushedFirstRun(q: AccountPlan, fks: seq<Option<int>>, ids: seq<int>)
    requires FirstRun(q)
    ensures FirstRun(PushParent(q, fks)) && FirstRun(PushChildren(q, ids))
  {
  }

  lemma ParentsWanted(db: Store, q: AccountPlan, fks: seq<Option<int>>)
    ensures var q' := PushParent(q, fks);
            Wanted(IDs(DecodeAll(q', Exec(db.accounts, q'.base))), fks)
  {
    var q' := PushParent(q, fks);
    var rows := Exec(db.accounts, q'.base);
    PushedHolds(db.accounts, q.base, InValues(AccountId, FirstUse(fks)));
    ColumnsHoldKeys(q'.fields, q'.proxy.Some?, q'.parent.Some?);
    assert forall i :: 0 <= i < |rows| ==> rows[i] in rows;
  }

  /** The pushed projection and the pushed IN condition together: every loaded child has a key of the batch. */
  lemma ChildrenKnown(db: Store, q: AccountPlan, ids: seq<int>)
    ensures var q' := PushChildren(q, ids);
            Known(ParentKeys(DecodeAll(q', Exec(db.accounts, q'.base))), ids)
  {
    var q' := PushChildren(q, ids);
    var rows := Exec(db.accounts, q'.base);
    PushedHolds(db.accounts, q.base, InValues(ParentColumn, ids));
    ColumnsHoldKeys(q'.fields, q'.proxy.Some?, q'.parent.Some?);
    assert forall i :: 0 <= i < |rows| ==> rows[i] in rows;
  }

  lemma JoinsKnown(db: Store, q: JoinPlan, ids: seq<int>)
    ensures var q' := PushJoin(q, ids);
            Known(JoinAccountKeys(DecodeJoins(q', Exec(db.accountGroups, q'.base))), ids)
  {
    var q' := PushJoin(q, ids);
    var rows := Exec(db.accountGroups, q'.base);
    PushedHolds(db.accountGroups, q.base, InValues(JoinAccountColumn, ids));
    assert ACCOUNT_ID in JoinColumns(q') by { assert JOIN_COLUMNS[0] == ACCOUNT_ID; }
    assert forall i :: 0 <= i < |rows| ==> rows[i] in rows;
  }

  lemma ProxiesWanted(db: Store, q: Settings<ProxyRow>, fks: seq<Option<int>>)
    ensures Wanted(ProxyIDs(Exec(db.proxies, PushProxy(q, fks))), fks)
  {
    var rows := Exec(db.proxies, PushProxy(q, fks));
    PushedHolds(db.proxies, q, InValues(ProxyId, FirstUse(fks)));
    assert forall i :: 0 <= i < |rows| ==> rows[i] in rows;
  }

  lemma GroupsWanted(db: Store, q: Settings<GroupRow>, fks: seq<Option<int>>)
    ensures Wanted(GroupIDs(Exec(db.groups, PushGroup(q, fks))), fks)
  {
    var rows := Exec(db.groups, PushGroup(q, fks));
    PushedHolds(db.groups, q, InValues(GroupId, FirstUse(fks)));
    assert forall i :: 0 <= i < |rows| ==> rows[i] in rows;
  }
}
