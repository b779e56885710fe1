/**
 What a run reads, off the rows of the store: which rows a query selects and in which order, and what an entity shows of
 its row.
 */
module ReadLaws {
  import opened Prelude
  import opened HashJoin
  import opened QueryPlans
  import opened EagerLaws
  import opened Entities
  import A = AccountRows

  // ---------- The rows ----------

  /** A row that meets a condition: NULL is in no list, and a join restricts pairs and not single rows. */
  ghost predicate Meets<R>(p: Predicate<R>, r: R) {
    match p
    case Where(test) => test(r)
    case InValues(column, values) => exists k :: 0 <= k < |values| && column(r) == Some(values[k])
    case JoinAccounts(_) => true
  }

  ghost predicate MeetsAll<R>(ps: seq<Predicate<R>>, r: R) {
    forall k :: 0 <= k < |ps| ==> Meets(ps[k], r)
  }

  lemma PassesExactly<R>(ps: seq<Predicate<R>>, r: R)
    ensures Passes(ps, r) <==> MeetsAll(ps, r)
  {
    forall k | 0 <= k < |ps|
      ensures Holds(ps[k], r) <==> Meets(ps[k], r)
    {
      HoldsExactly(ps[k], r);
    }
  }

  lemma HoldsExactly<R>(p: Predicate<R>, r: R)
    ensures Holds(p, r) <==> Meets(p, r)
  {
  }

  /** `at` are, in order, the positions of the rows that meet every condition, and `found` are those rows. */
  ghost predicate Found<R>(ps: seq<Predicate<R>>, rows: seq<R>, at: seq<nat>, found: seq<R>) {
    && Ascending(at) && |at| == |found|
    && (forall k :: 0 <= k < |at| ==> at[k] < |rows| && found[k] == rows[at[k]])
    && (forall i :: 0 <= i < |rows| ==> (i in at <==> MeetsAll(ps, rows[i])))
  }

  lemma FoundMore<R>(ps: seq<Predicate<R>>, rows: seq<R>, at: seq<nat>, found: seq<R>, r: R)
    requires Found(ps, rows, at, found) && MeetsAll(ps, r)
    ensures Found(ps, rows + [r], at + [|rows|], found + [r])
  {
    hide MeetsAll, Ascending;
    var at', found', rows' := at + [|rows|], found + [r], rows + [r];
    AscendingMore(at, |rows|);
    forall k | 0 <= k < |at'|
      ensures at'[k] < |rows'| && found'[k] == rows'[at'[k]]
    {
      if k < |at| {
        assert at'[k] == at[k] && found'[k] == found[k];
      }
    }
    forall i | 0 <= i < |rows'|
      ensures i in at' <==> MeetsAll(ps, rows'[i])
    {
      assert i in at' <==> i in at || i == |rows|;
      if i < |rows| {
        assert rows'[i] == rows[i];
      }
    }
  }

  lemma FoundSkip<R>(ps: seq<Predicate<R>>, rows: seq<R>, at: seq<nat>, found: seq<R>, r: R)
    requires Found(ps, rows, at, found) && !MeetsAll(ps, r)
    ensures Found(ps, rows + [r], at, found)
  {
    hide MeetsAll, Ascending;
    var rows' := rows + [r];
    forall i | 0 <= i < |rows'|
      ensures i in at <==> MeetsAll(ps, rows'[i])
    {
      if i < |rows| {
        assert rows'[i] == rows[i];
      }
    }
  }

  lemma AscendingMore(at: seq<nat>, n: nat)
    requires Ascending(at) && forall k :: 0 <= k < |at| ==> at[k] < n
    ensures Ascending(at + [n])
  {
    var more := at + [n];
    assert forall k :: 0 <= k < |at| ==> more[k] == at[k];
  }

  lemma {:induction false} SelectPositions<R(!new)>(ps: seq<Predicate<R>>, rows: seq<R>) returns (at: seq<nat>)
    ensures Found(ps, rows, at, Select(ps, rows))
  {
    hide MeetsAll, Passes;
    if rows == [] {
      at := [];
    } else {
      hide Found;
      var last := |rows| - 1;
      at := SelectPositions(ps, rows[..last]);
      var found := Select(ps, rows[..last]);
      PassesExactly(ps, rows[last]);
      assert rows[..last] + [rows[last]] == rows && found + [] == found;
      if Passes(ps, rows[last]) {
        FoundMore(ps, rows[..last], at, found, rows[last]);
        at := at + [last];
      } else {
        FoundSkip(ps, rows[..last], at, found, rows[last]);
      }
    }
  }

  /** LIMIT and OFFSET: so many rows are skipped, and then no more than so many are left; a limit of zero is none. */
  lemma WindowExactly<R(!new)>(rows: seq<R>, limit: Option<nat>, offset: Option<nat>)
    ensures var skip := if offset.Some? then offset.value else 0;
            var left := if skip < |rows| then |rows| - skip else 0;
            var w := Window(rows, limit, offset);
            && |w| == (if limit.Some? && 0 < limit.value < left then limit.value else left)
            && forall k :: 0 <= k < |w| ==> w[k] == rows[skip + k]
  {
  }

  /** Page after page, nothing is lost or repeated. */
  lemma PagesCover<R(!new)>(rows: seq<R>, n: nat, k: nat)
    requires n > 0
    ensures var read := (m: nat) => if m < |rows| then rows[..m] else rows;
            read(k * n) + Window(rows, Some(n), Some(k * n)) == read(k * n + n)
  {
    WindowExactly(rows, Some(n), Some(k * n));
  }

  /**
   The rows a query selects: those of the table, in the order it asks for, that meet every condition, cut to its window.
   */
  lemma ExecExactly<R(!new)>(table: Table<R>, q: Settings<R>) returns (at: seq<nat>)
    ensures var rows := table(q.order);
            && Ascending(at)
            && (forall k :: 0 <= k < |at| ==> at[k] < |rows|)
            && (forall i :: 0 <= i < |rows| ==> (i in at <==> MeetsAll(q.predicates, rows[i])))
    ensures var rows := table(q.order);
            var skip := if q.offset.Some? then q.offset.value else 0;
            var left := if skip < |at| then |at| - skip else 0;
            var read := Exec(table, q);
            && |read| == (if q.limit.Some? && 0 < q.limit.value < left then q.limit.value else left)
            && forall k :: 0 <= k < |read| ==> skip + k < |at| && read[k] == rows[at[skip + k]]
  {
    hide MeetsAll, Select, Window;
    at := SelectPositions(q.predicates, table(q.order));
    WindowExactly(Select(q.predicates, table(q.order)), q.limit, q.offset);
  }

  /** The window of a group query is a window on the joined rows of the whole batch. */
  lemma StreamWindow(db: Store, q: Settings<GroupRow>, ids: seq<int>)
    ensures var all := ExecPairs(db, q.(limit := None, offset := None), ids);
            var skip := if q.offset.Some? then q.offset.value else 0;
            var left := if skip < |all| then |all| - skip else 0;
            var read := ExecPairs(db, q, ids);
            && |read| == (if q.limit.Some? && 0 < q.limit.value < left then q.limit.value else left)
            && forall k :: 0 <= k < |read| ==> read[k] == all[skip + k]
  {
    hide Select, PairStream, Window;
    WindowExactly(PairStream(Select(q.predicates, db.groups(q.order)), db.accountGroups([]), ids), q.limit, q.offset);
  }

  // ---------- What an entity shows of its row ----------

  /**
   A column that an account query selects: every column without a projection, else the ID, the selected fields and the
   foreign keys that its edges need, its own and, for children, the one that leads to the parent.
   */
  ghost predicate Selects(p: AccountPlan, linked: bool, c: string) {
    if p.fields == [] then c in ACCOUNT_COLUMNS
    else
      || c == "id" || c in p.fields
      || (p.proxy.Some? && c == "proxy_id")
      || ((p.parent.Some? || linked) && c == "parent_account_id")
  }

  ghost predicate Reads(e: AccountFields, r: AccountRow, selected: string -> bool) {
    && e.id == r.id
    && e.proxyId == (if selected("proxy_id") then r.proxyId else None)
    && e.parentAccountId == (if selected("parent_account_id") then r.parentAccountId else None)
    && (forall c :: c in e.values <==> c in r.cells && selected(c))
    && (forall c :: c in e.values ==> e.values[c] == r.cells[c])
  }

  ghost predicate JoinSelects(q: JoinPlan, c: string) {
    if q.fields == [] then c == "account_id" || c == "group_id" || c == "priority" || c == "created_at"
    else c in q.fields || c == "account_id" || (q.group.Some? && c == "group_id")
  }

  ghost predicate JoinReads(e: JoinFields, r: JoinRow, selected: string -> bool) {
    && e.accountId == (if selected("account_id") then r.accountId else 0)
    && e.groupId == (if selected("group_id") then r.groupId else 0)
    && (forall c :: c in e.values <==> c in r.cells && selected(c))
    && (forall c :: c in e.values ==> e.values[c] == r.cells[c])
  }

  /** `q` is the query `p` after something was pushed into it: the same edges, and a key more where it is linked. */
  ghost predicate PushedFrom(q: AccountPlan, p: AccountPlan, linked: bool) {
    && q == p.(base := q.base, fields := q.fields)
    && (q.fields == [] <==> p.fields == [])
    && forall c :: c in q.fields <==> c in p.fields || (linked && p.fields != [] && c == PARENT_ACCOUNT_ID)
  }

  lemma ColumnsSelected(q: AccountPlan, p: AccountPlan, linked: bool)
    requires PushedFrom(q, p, linked)
    ensures forall c :: c in PlanColumns(q) <==> Selects(p, linked, c)
  {
    hide ACCOUNT_COLUMNS;
    if q.fields != [] {
      var cols := [ID] + Without(q.fields, ID);
      assert forall c :: c in cols <==> c == ID || c in q.fields;
    }
  }

  lemma IDSelected(p: AccountPlan, linked: bool)
    ensures Selects(p, linked, "id")
  {
    assert ACCOUNT_COLUMNS[0] == "id";
  }

  lemma DecodeReads(q: AccountPlan, p: AccountPlan, linked: bool, r: AccountRow)
    requires PushedFrom(q, p, linked)
    ensures Reads(Decode(PlanColumns(q), r), r, c => Selects(p, linked, c))
  {
    hide PlanColumns, ACCOUNT_COLUMNS, PushedFrom, Selects;
    ColumnsSelected(q, p, linked);
    IDSelected(p, linked);
  }

  lemma JoinDecodeReads(q: JoinPlan, ids: seq<int>, r: JoinRow)
    ensures JoinReads(DecodeJoin(JoinColumns(PushJoin(q, ids)), r), r, c => JoinSelects(q, c))
  {
    assert JOIN_COLUMNS == ["account_id", "group_id", "priority", "created_at"];
  }

  /** The name under which a column of the entity is selected. */
  function ColumnName(c: A.Column): string {
    match c
    case Id => "id"
    case CreatedAt => "created_at"
    case UpdatedAt => "updated_at"
    case DeletedAt => "deleted_at"
    case Name => "name"
    case Notes => "notes"
    case Platform => "platform"
    case Type => "type"
    case Credentials => "credentials"
    case Extra => "extra"
    case ProxyID => "proxy_id"
    case ProxyFallbackOriginID => "proxy_fallback_origin_id"
    case Concurrency => "concurrency"
    case LoadFactor => "load_factor"
    case Priority => "priority"
    case RateMultiplier => "rate_multiplier"
    case Status => "status"
    case ErrorMessage => "error_message"
    case LastUsedAt => "last_used_at"
    case ExpiresAt => "expires_at"
    case AutoPauseOnExpired => "auto_pause_on_expired"
    case Schedulable => "schedulable"
    case RateLimitedAt => "rate_limited_at"
    case RateLimitResetAt => "rate_limit_reset_at"
    case OverloadUntil => "overload_until"
    case TempUnschedulableUntil => "temp_unschedulable_until"
    case TempUnschedulableReason => "temp_unschedulable_reason"
    case SessionWindowStart => "session_window_start"
    case SessionWindowEnd => "session_window_end"
    case SessionWindowStatus => "session_window_status"
    case ParentAccountID => "parent_account_id"
    case QuotaDimension => "quota_dimension"
    case Other(name) => name
  }

  function Place(c: A.Column): nat
    requires !c.Other?
  {
    match c
    case Id => 0
    case CreatedAt => 1
    case UpdatedAt => 2
    case DeletedAt => 3
    case Name => 4
    case Notes => 5
    case Platform => 6
    case Type => 7
    case Credentials => 8
    case Extra => 9
    case ProxyID => 10
    case ProxyFallbackOriginID => 11
    case Concurrency => 12
    case LoadFactor => 13
    case Priority => 14
    case RateMultiplier => 15
    case Status => 16
    case ErrorMessage => 17
    case LastUsedAt => 18
    case ExpiresAt => 19
    case AutoPauseOnExpired => 20
    case Schedulable => 21
    case RateLimitedAt => 22
    case RateLimitResetAt => 23
    case OverloadUntil => 24
    case TempUnschedulableUntil => 25
    case TempUnschedulableReason => 26
    case SessionWindowStart => 27
    case SessionWindowEnd => 28
    case SessionWindowStatus => 29
    case ParentAccountID => 30
    case QuotaDimension => 31
  }

  lemma ColumnPlaced(c: A.Column)
    requires !c.Other?
    ensures Place(c) < |A.Columns()| == 32 && A.Columns()[Place(c)] == c
  {
    match c
    case Id | CreatedAt | UpdatedAt | DeletedAt =>
    case Name | Notes | Platform | Type =>
    case Credentials | Extra | ProxyID | ProxyFallbackOriginID =>
    case Concurrency | LoadFactor | Priority | RateMultiplier =>
    case Status | ErrorMessage | LastUsedAt | ExpiresAt =>
    case AutoPauseOnExpired | Schedulable | RateLimitedAt | RateLimitResetAt =>
    case OverloadUntil | TempUnschedulableUntil | TempUnschedulableReason | SessionWindowStart =>
    case SessionWindowEnd | SessionWindowStatus | ParentAccountID | QuotaDimension =>
  }

  lemma ColumnSpelled(c: A.Column)
    requires !c.Other?
    ensures Place(c) < |ACCOUNT_COLUMNS| == 32 && ACCOUNT_COLUMNS[Place(c)] == ColumnName(c)
  {
    match c
    case Id | CreatedAt | UpdatedAt | DeletedAt =>
    case Name | Notes | Platform | Type =>
    case Credentials | Extra | ProxyID | ProxyFallbackOriginID =>
    case Concurrency | LoadFactor | Priority | RateMultiplier =>
    case Status | ErrorMessage | LastUsedAt | ExpiresAt =>
    case AutoPauseOnExpired | Schedulable | RateLimitedAt | RateLimitResetAt =>
    case OverloadUntil | TempUnschedulableUntil | TempUnschedulableReason | SessionWindowStart =>
    case SessionWindowEnd | SessionWindowStatus | ParentAccountID | QuotaDimension =>
  }

  /** Without a projection a query selects every column of the entity, under its name and in the entity's order. */
  lemma ColumnsNamed(c: A.Column)
    requires !c.Other?
    ensures Place(c) < |ACCOUNT_COLUMNS| == |A.Columns()|
    ensures A.Columns()[Place(c)] == c && ACCOUNT_COLUMNS[Place(c)] == ColumnName(c)
  {
    hide ColumnName, Place, A.Columns, ACCOUNT_COLUMNS;
    ColumnPlaced(c);
    ColumnSpelled(c);
  }

  // ---------- The whole tree ----------

  ghost predicate ParentReads(db: Store, p: AccountPlan, t: AccountTree, r: AccountRow)
    decreases p, 1
  {
    exists up :: up in db.accounts([]) && r.parentAccountId == Some(up.id) && TreeReads(db, p, false, t, up)
  }

  ghost predicate ChildReads(db: Store, p: AccountPlan, t: AccountTree, r: AccountRow)
    decreases p, 1
  {
    exists down :: down in db.accounts([]) && down.parentAccountId == Some(r.id) && TreeReads(db, p, true, t, down)
  }

  ghost predicate LinkReads(db: Store, q: JoinPlan, t: JoinTree, r: AccountRow) {
    exists link :: link in db.accountGroups([]) && link.accountId == r.id &&
      JoinReads(t.entity, link, c => JoinSelects(q, c))
  }

  /** Every account and join row of the tree shows a row of the store, the one that its place in the tree stands for. */
  ghost predicate TreeReads(db: Store, p: AccountPlan, linked: bool, t: AccountTree, r: AccountRow)
    decreases p, 0
  {
    && Reads(t.entity, r, c => Selects(p, linked, c))
    && (t.parent.Some? ==> p.parent.Some? && ParentReads(db, p.parent.value, t.parent.value, r))
    && (t.children != [] ==> p.children.Some?)
    && (forall k :: 0 <= k < |t.children| ==> ChildReads(db, p.children.value, t.children[k], r))
    && (t.accountGroups != [] ==> p.accountGroups.Some?)
    && (forall k :: 0 <= k < |t.accountGroups| ==> LinkReads(db, p.accountGroups.value, t.accountGroups[k], r))
  }

  lemma PushedParent(q: AccountPlan, fks: seq<Option<int>>)
    ensures PushedFrom(PushParent(q, fks), q, false)
  {
  }

  lemma PushedChildren(q: AccountPlan, ids: seq<int>)
    ensures PushedFrom(PushChildren(q, ids), q, true)
  {
  }

  lemma InStore(db: Store, q: Settings<AccountRow>, r: AccountRow)
    requires Keyed(db) && r in Exec(db.accounts, q)
    ensures r in db.accounts([])
  {
  }

  lemma {:induction false} BatchParentReads(db: Store, q: AccountPlan, fks: seq<Option<int>>, r: AccountRow)
    requires Keyed(db)
    ensures var t := BatchParent(db, q, fks, r.parentAccountId);
            t.Some? ==> ParentReads(db, q, t.value, r)
    decreases q, 2
  {
    hide Batch, Exec, TreeReads, Keyed;
    var q' := PushParent(q, fks);
    var nb := Exec(db.accounts, q'.base);
    var keys, ts := IDs(DecodeAll(q', nb)), Batch(db, q', nb);
    PushedParent(q, fks);
    BatchReads(db, q, q', false, nb);
    LatestIs(keys, ts, r.parentAccountId);
    DecodedKeys(q', nb);
    var j := Last(keys, r.parentAccountId);
    if j >= 0 {
      InStore(db, q'.base, nb[j]);
      assert TreeReads(db, q, false, ts[j], nb[j]);
    }
  }

  lemma {:induction false} BatchChildReads(db: Store, q: AccountPlan, ids: seq<int>, r: AccountRow, k: nat)
    requires Keyed(db) && k < |BatchChildren(db, q, ids, r.id)|
    ensures ChildReads(db, q, BatchChildren(db, q, ids, r.id)[k], r)
    decreases q, 2
  {
    hide Batch, Exec, TreeReads, Keyed;
    var q' := PushChildren(q, ids);
    var nb := Exec(db.accounts, q'.base);
    var ts, fks := Batch(db, q', nb), ParentKeys(DecodeAll(q', nb));
    PushedChildren(q, ids);
    BatchReads(db, q, q', true, nb);
    DecodedKeys(q', nb);
    PositionsExact(fks, r.id);
    var j := Positions(fks, r.id)[k];
    assert j in Positions(fks, r.id);
    assert fks == Keys(ParentColumn, nb);
    InStore(db, q'.base, nb[j]);
    assert TreeReads(db, q, true, ts[j], nb[j]);
  }

  lemma BatchLinkReads(db: Store, q: JoinPlan, ids: seq<int>, r: AccountRow, k: nat)
    requires Keyed(db) && k < |BatchJoins(db, q, ids, r.id)|
    ensures LinkReads(db, q, BatchJoins(db, q, ids, r.id)[k], r)
  {
    hide Keyed, LinkReads, JoinTrees, Exec, DecodeJoin;
    var q' := PushJoin(q, ids);
    var nb := Exec(db.accountGroups, q'.base);
    var fks := JoinAccountKeys(DecodeJoins(q', nb));
    PositionsExact(fks, r.id);
    var j := Positions(fks, r.id)[k];
    assert j in Positions(fks, r.id);
    JoinKeyRead(q, ids, nb[j]);
    LinkAt(db, q, ids, nb, j, r);
  }

  lemma LinkAt(db: Store, q: JoinPlan, ids: seq<int>, nb: seq<JoinRow>, j: nat, r: AccountRow)
    requires Keyed(db) && nb == Exec(db.accountGroups, PushJoin(q, ids).base) && j < |nb| && nb[j].accountId == r.id
    ensures LinkReads(db, q, JoinTrees(db, PushJoin(q, ids), nb)[j], r)
  {
    hide JoinReads, JoinSelects, JoinColumns, DecodeJoin;
    JoinDecodeReads(q, ids, nb[j]);
    assert nb[j] in nb;
  }

  lemma JoinKeyRead(q: JoinPlan, ids: seq<int>, r: JoinRow)
    ensures DecodeJoin(JoinColumns(PushJoin(q, ids)), r).accountId == r.accountId
  {
    JoinColumnsHoldKeys(q, ids);
  }

  /**
   The trees of a batch, whatever is projected at whatever level and whatever windows there are: under every column that
   its query selects an account shows the cell of its row, and nothing under any other, and so do the parents, children
   and join rows below it.
   */
  lemma {:induction false} BatchReads(db: Store, p: AccountPlan, q: AccountPlan, linked: bool, rows: seq<AccountRow>)
    requires Keyed(db) && PushedFrom(q, p, linked)
    ensures forall i :: 0 <= i < |rows| ==> TreeReads(db, p, linked, Batch(db, q, rows)[i], rows[i])
    decreases p, 1
  {
    forall i | 0 <= i < |rows|
      ensures TreeReads(db, p, linked, Batch(db, q, rows)[i], rows[i])
    {
      NodeReads(db, p, q, linked, rows, i);
    }
  }

  lemma {:induction false} NodeReads(db: Store, p: AccountPlan, q: AccountPlan, linked: bool, rows: seq<AccountRow>,
          i: nat)
    requires Keyed(db) && PushedFrom(q, p, linked) && i < |rows|
    ensures TreeReads(db, p, linked, BatchTree(db, q, rows, i), rows[i])
    decreases p, 0
  {
    hide Keyed, Reads, Selects, Decode, PlanColumns, ParentReads, ChildReads, LinkReads, BatchParent, BatchChildren,
         BatchJoins;
    var es, t, r := DecodeAll(q, rows), BatchTree(db, q, rows, i), rows[i];
    DecodeReads(q, p, linked, r);
    DecodedKeys(q, rows);
    if p.parent.Some? {
      BatchParentReads(db, p.parent.value, ParentKeys(es), r);
    }
    if p.children.Some? {
      assert t.children == EdgeChildren(db, q, es, i) == BatchChildren(db, p.children.value, IDs(es), r.id);
      forall k | 0 <= k < |t.children|
        ensures ChildReads(db, p.children.value, t.children[k], r)
      {
        BatchChildReads(db, p.children.value, IDs(es), r, k);
      }
    }
    if p.accountGroups.Some? {
      forall k | 0 <= k < |t.accountGroups|
        ensures LinkReads(db, p.accountGroups.value, t.accountGroups[k], r)
      {
        BatchLinkReads(db, p.accountGroups.value, IDs(es), r, k);
      }
    }
  }

  // ---------- The objects of a run ----------

  ghost predicate ObjectReads(db: Store, p: AccountPlan, linked: bool, n: Account, r: AccountRow, S: set<object>)
    reads n, S
    decreases p, 0
  {
    && Reads(n.entity, r, c => Selects(p, linked, c))
    && (n.Parent != null ==> n.Parent in S && p.parent.Some? && ParentObject(db, p.parent.value, n.Parent, r, S))
    && (n.Children != [] ==> p.children.Some?)
    && (forall k :: 0 <= k < |n.Children| ==>
          n.Children[k] in S && ChildObject(db, p.children.value, n.Children[k], r, S))
    && (n.AccountGroups != [] ==> p.accountGroups.Some?)
    && (forall k :: 0 <= k < |n.AccountGroups| ==>
          n.AccountGroups[k] in S && LinkObject(db, p.accountGroups.value, n.AccountGroups[k], r))
  }

  ghost predicate ParentObject(db: Store, p: AccountPlan, n: Account, r: AccountRow, S: set<object>)
    reads n, S
    decreases p, 1
  {
    exists up :: up in db.accounts([]) && r.parentAccountId == Some(up.id) && ObjectReads(db, p, false, n, up, S)
  }

  ghost predicate ChildObject(db: Store, p: AccountPlan, n: Account, r: AccountRow, S: set<object>)
    reads n, S
    decreases p, 1
  {
    exists down :: down in db.accounts([]) && down.parentAccountId == Some(r.id) && ObjectReads(db, p, true, n, down, S)
  }

  ghost predicate LinkObject(db: Store, q: JoinPlan, n: AccountGroup, r: AccountRow)
    reads n
  {
    exists link :: link in db.accountGroups([]) && link.accountId == r.id &&
      JoinReads(n.entity, link, c => JoinSelects(q, c))
  }

  /** The objects of a run, one for each row that its query selects, in order. */
  ghost predicate ObjectsRead(db: Store, p: AccountPlan, nodes: seq<Account>, rows: seq<AccountRow>, S: set<object>)
    reads nodes, S
  {
    |nodes| == |rows| && forall i :: 0 <= i < |nodes| ==> ObjectReads(db, p, false, nodes[i], rows[i], S)
  }

  lemma {:induction false} ShownReads(db: Store, p: AccountPlan, linked: bool, n: Account, t: AccountTree,
          r: AccountRow, S: set<object>)
    requires Shows(n, t, S) && TreeReads(db, p, linked, t, r)
    ensures ObjectReads(db, p, linked, n, r, S)
    decreases p, 0
  {
    hide Selects, ParentReads, ParentObject, ChildReads, ChildObject, LinkReads, LinkObject;
    if t.parent.Some? {
      ShownParent(db, p.parent.value, n.Parent, t.parent.value, r, S);
    }
    forall k | 0 <= k < |n.Children|
      ensures n.Children[k] in S && ChildObject(db, p.children.value, n.Children[k], r, S)
    {
      ShownChild(db, p.children.value, n.Children[k], t.children[k], r, S);
    }
    forall k | 0 <= k < |n.AccountGroups|
      ensures n.AccountGroups[k] in S && LinkObject(db, p.accountGroups.value, n.AccountGroups[k], r)
    {
      ShownLink(db, p.accountGroups.value, n.AccountGroups[k], t.accountGroups[k], r);
    }
  }

  lemma {:induction false} ShownParent(db: Store, p: AccountPlan, n: Account, t: AccountTree, r: AccountRow,
          S: set<object>)
    requires Shows(n, t, S) && ParentReads(db, p, t, r)
    ensures ParentObject(db, p, n, r, S)
    decreases p, 1
  {
    hide Shows, TreeReads, ObjectReads;
    var up :| up in db.accounts([]) && r.parentAccountId == Some(up.id) && TreeReads(db, p, false, t, up);
    ShownReads(db, p, false, n, t, up, S);
  }

  lemma {:induction false} ShownChild(db: Store, p: AccountPlan, n: Account, t: AccountTree, r: AccountRow,
          S: set<object>)
    requires Shows(n, t, S) && ChildReads(db, p, t, r)
    ensures ChildObject(db, p, n, r, S)
    decreases p, 1
  {
    hide Shows, TreeReads, ObjectReads;
    var down :| down in db.accounts([]) && down.parentAccountId == Some(r.id) && TreeReads(db, p, true, t, down);
    ShownReads(db, p, true, n, t, down, S);
  }

  lemma ShownLink(db: Store, q: JoinPlan, n: AccountGroup, t: JoinTree, r: AccountRow)
    requires n.entity == t.entity && LinkReads(db, q, t, r)
    ensures LinkObject(db, q, n, r)
  {
    hide JoinReads, JoinSelects;
  }

  lemma BatchObjects(db: Store, p: AccountPlan, nodes: seq<Account>, rows: seq<AccountRow>, S: set<object>)
    requires Keyed(db) && ChildrenShow(nodes, Batch(db, p, rows), S)
    ensures ObjectsRead(db, p, nodes, rows, S)
  {
    hide Keyed, Batch, TreeReads, ObjectReads, Shows, Selects;
    var ts := Batch(db, p, rows);
    BatchReads(db, p, p, false, rows);
    forall i | 0 <= i < |nodes|
      ensures ObjectReads(db, p, false, nodes[i], rows[i], S)
    {
      ShownReads(db, p, false, nodes[i], ts[i], rows[i], S);
    }
  }
}
