/**
 The entities that a query returns, as objects, and the loops that hand loaded neighbours to them.
 A loop writes one edge field of the batch's nodes and nothing else.
 */
module Entities {
  import opened Prelude
  import opened HashJoin
  import opened QueryPlans

  /** A decoded "account_groups" row; the join entity has no ID of its own. */
  class AccountGroup {
    const entity: JoinFields
    const loadedGroup: bool
    var Group: Option<GroupRow>

    constructor (entity: JoinFields, loadedGroup: bool)
      ensures this.entity == entity && this.loadedGroup == loadedGroup && Group == None
    {
      this.entity, this.loadedGroup, Group := entity, loadedGroup, None;
    }
  }

  /** A decoded account; the loaders fill in the edges. */
  class Account {
    const entity: AccountFields
    const loadedTypes: Loaded
    var Groups: seq<GroupRow>
    var Proxy: Option<ProxyRow>
    var Parent: Account?
    var Children: seq<Account>
    var AccountGroups: seq<AccountGroup>

    constructor (entity: AccountFields, loadedTypes: Loaded)
      ensures this.entity == entity && this.loadedTypes == loadedTypes
      ensures Groups == [] && Proxy == None && Parent == null && Children == [] && AccountGroups == []
    {
      this.entity, this.loadedTypes := entity, loadedTypes;
      Groups, Proxy, Parent, Children, AccountGroups := [], None, null, [], [];
    }

    function ProxyOrErr(): EdgeResult<ProxyRow>
      reads this
    {
      if Proxy.Some? then Found(Proxy.value) else if loadedTypes.proxy then NotFound else NotLoaded
    }

    function ParentOrErr(): EdgeResult<Account>
      reads this
    {
      if Parent != null then Found(Parent) else if loadedTypes.parent then NotFound else NotLoaded
    }

    function ChildrenOrErr(): EdgeResult<seq<Account>>
      reads this
    {
      if loadedTypes.children then Found(Children) else NotLoaded
    }
  }

  // ---------- An object graph shows a tree ----------

  ghost predicate JoinShows(n: AccountGroup, t: JoinTree)
    reads n
  {
    n.entity == t.entity && n.loadedGroup == t.loadedGroup && n.Group == t.group
  }

  ghost predicate JoinsShow(js: seq<AccountGroup>, ts: seq<JoinTree>, S: set<object>)
    reads S
  {
    |js| == |ts| && forall k :: 0 <= k < |js| ==> js[k] in S && JoinShows(js[k], ts[k])
  }

  ghost predicate ParentShows(p: Account?, t: Option<AccountTree>, S: set<object>)
    reads S
  {
    match t
    case None => p == null
    case Some(pt) => p != null && p in S && Shows(p, pt, S)
  }

  ghost predicate ChildrenShow(cs: seq<Account>, ts: seq<AccountTree>, S: set<object>)
    reads S
  {
    |cs| == |ts| && forall k :: 0 <= k < |cs| ==> cs[k] in S && Shows(cs[k], ts[k], S)
  }

  /** The object graph below `n` is the tree `t`; every object it reaches is in `S`. */
  ghost predicate Shows(n: Account, t: AccountTree, S: set<object>)
    reads n, S
    decreases t
  {
    && n.entity == t.entity && n.loadedTypes == t.loaded
    && n.Groups == t.groups && n.Proxy == t.proxy
    && (t.parent.None? ==> n.Parent == null)
    && (t.parent.Some? ==> n.Parent != null && n.Parent in S && Shows(n.Parent, t.parent.value, S))
    && |n.Children| == |t.children|
    && (forall k :: 0 <= k < |t.children| ==> n.Children[k] in S && Shows(n.Children[k], t.children[k], S))
    && JoinsShow(n.AccountGroups, t.accountGroups, S)
  }

  lemma {:induction false} ShowsMore(n: Account, t: AccountTree, S: set<object>, S': set<object>)
    requires Shows(n, t, S) && S <= S'
    ensures Shows(n, t, S')
    decreases t
  {
    if t.parent.Some? {
      ShowsMore(n.Parent, t.parent.value, S, S');
    }
    forall k | 0 <= k < |t.children|
      ensures n.Children[k] in S' && Shows(n.Children[k], t.children[k], S')
    {
      ShowsMore(n.Children[k], t.children[k], S, S');
    }
  }

  /** The nodes hold the decoded rows of a batch, one object each. */
  ghost predicate Decoded(nodes: seq<Account>, es: seq<AccountFields>, loaded: Loaded) {
    && Distinct(nodes) && |es| == |nodes|
    && forall i :: 0 <= i < |nodes| ==> nodes[i].entity == es[i] && nodes[i].loadedTypes == loaded
  }

  lemma DecodedLength(nodes: seq<Account>, es: seq<AccountFields>, loaded: Loaded)
    requires Decoded(nodes, es, loaded)
    ensures |es| == |nodes|
  {
  }

  lemma DecodedAt(nodes: seq<Account>, es: seq<AccountFields>, loaded: Loaded, k: nat)
    requires k < |nodes| && Decoded(nodes, es, loaded)
    ensures |es| == |nodes| && nodes[k].entity == es[k] && nodes[k].loadedTypes == loaded
  {
  }

  ghost predicate Apart<T>(nodes: seq<T>, S: set<T>) {
    forall i :: 0 <= i < |nodes| ==> nodes[i] !in S
  }

  // ---------- M2O ----------

  method AssignGroup(nodes: seq<AccountGroup>, waiting: seq<nat>, n: GroupRow)
    requires Distinct(nodes) && forall m :: 0 <= m < |waiting| ==> waiting[m] < |nodes|
    modifies nodes`Group
    ensures forall i :: 0 <= i < |nodes| ==> nodes[i].Group == if i in waiting then Some(n) else old(nodes[i].Group)
  {
    for m := 0 to |waiting|
      invariant forall i :: 0 <= i < |nodes| ==>
              nodes[i].Group == if i in waiting[..m] then Some(n) else old(nodes[i].Group)
    {
      nodes[waiting[m]].Group := Some(n);
    }
  }

  /** The second half of loadGroup; the error of an unexpected foreign key is never reached. */
  method DistributeGroup(nodes: seq<AccountGroup>, ghost fks: seq<Option<int>>, nodeids: map<int, seq<nat>>,
          neighbors: seq<GroupRow>)
      returns (unexpected: bool)
    requires Distinct(nodes) && |fks| == |nodes|
    requires forall i :: 0 <= i < |nodes| ==> nodes[i].Group == None
    requires Indexed(nodeids, fks) && Wanted(GroupIDs(neighbors), fks)
    modifies nodes`Group
    ensures !unexpected
    ensures forall i :: 0 <= i < |nodes| ==>
            nodes[i].Group == Latest(GroupIDs(neighbors), neighbors, |neighbors|, fks[i])
  {
    hide Wanted, Indexed, Distinct, Decoded, Positions;
    unexpected := false;
    ghost var keys := GroupIDs(neighbors);
    for k := 0 to |neighbors|
      invariant forall i :: 0 <= i < |nodes| ==> nodes[i].Group == Latest(keys, neighbors, k, fks[i])
    {
      var n := neighbors[k];
      WantedAt(keys, fks, nodeids, k);
      if n.id !in nodeids {
        return true;
      }
      AssignGroup(nodes, nodeids[n.id], n);
    }
  }

  method AssignProxy(nodes: seq<Account>, waiting: seq<nat>, n: ProxyRow)
    requires Distinct(nodes) && forall m :: 0 <= m < |waiting| ==> waiting[m] < |nodes|
    modifies nodes`Proxy
    ensures forall i :: 0 <= i < |nodes| ==> nodes[i].Proxy == if i in waiting then Some(n) else old(nodes[i].Proxy)
  {
    for m := 0 to |waiting|
      invariant forall i :: 0 <= i < |nodes| ==>
              nodes[i].Proxy == if i in waiting[..m] then Some(n) else old(nodes[i].Proxy)
    {
      nodes[waiting[m]].Proxy := Some(n);
    }
  }

  /** The second half of loadProxy. */
  method DistributeProxies(nodes: seq<Account>, ghost fks: seq<Option<int>>, nodeids: map<int, seq<nat>>,
          neighbors: seq<ProxyRow>)
      returns (unexpected: bool)
    requires Distinct(nodes) && |fks| == |nodes|
    requires forall i :: 0 <= i < |nodes| ==> nodes[i].Proxy == None
    requires Indexed(nodeids, fks) && Wanted(ProxyIDs(neighbors), fks)
    modifies nodes`Proxy
    ensures !unexpected
    ensures forall i :: 0 <= i < |nodes| ==>
            nodes[i].Proxy == Latest(ProxyIDs(neighbors), neighbors, |neighbors|, fks[i])
  {
    hide Wanted, Indexed, Distinct, Decoded, Positions;
    unexpected := false;
    ghost var keys := ProxyIDs(neighbors);
    for k := 0 to |neighbors|
      invariant forall i :: 0 <= i < |nodes| ==> nodes[i].Proxy == Latest(keys, neighbors, k, fks[i])
    {
      var n := neighbors[k];
      WantedAt(keys, fks, nodeids, k);
      if n.id !in nodeids {
        return true;
      }
      AssignProxy(nodes, nodeids[n.id], n);
    }
  }

  function Ref(p: Option<Account>): Account? {
    if p.Some? then p.value else null
  }

  method AssignParent(nodes: seq<Account>, waiting: seq<nat>, n: Account)
    requires Distinct(nodes) && forall m :: 0 <= m < |waiting| ==> waiting[m] < |nodes|
    modifies nodes`Parent
    ensures forall i :: 0 <= i < |nodes| ==> nodes[i].Parent == if i in waiting then n else old(nodes[i].Parent)
  {
    for m := 0 to |waiting|
      invariant forall i :: 0 <= i < |nodes| ==>
              nodes[i].Parent == if i in waiting[..m] then n else old(nodes[i].Parent)
    {
      nodes[waiting[m]].Parent := n;
    }
  }

  /** The second half of loadParent. */
  method DistributeParents(nodes: seq<Account>, ghost fks: seq<Option<int>>, nodeids: map<int, seq<nat>>,
                           neighbors: seq<Account>, ghost nbs: seq<AccountFields>, ghost loaded: Loaded)
      returns (unexpected: bool)
    requires Distinct(nodes) && |fks| == |nodes| && Decoded(neighbors, nbs, loaded)
    requires forall i :: 0 <= i < |nodes| ==> nodes[i].Parent == null
    requires Indexed(nodeids, fks) && Wanted(IDs(nbs), fks)
    modifies nodes`Parent
    ensures !unexpected
    ensures forall i :: 0 <= i < |nodes| ==> nodes[i].Parent == Ref(Latest(IDs(nbs), neighbors, |neighbors|, fks[i]))
  {
    hide Wanted, Indexed, Distinct, Decoded, Positions;
    unexpected := false;
    ghost var keys := IDs(nbs);
    DecodedLength(neighbors, nbs, loaded);
    for k := 0 to |neighbors|
      invariant forall i :: 0 <= i < |nodes| ==> nodes[i].Parent == Ref(Latest(keys, neighbors, k, fks[i]))
    {
      var n := neighbors[k];
      assert n.entity.id == keys[k] by { DecodedAt(neighbors, nbs, loaded, k); }
      WantedAt(keys, fks, nodeids, k);
      if n.entity.id !in nodeids {
        return true;
      }
      AssignParent(nodes, nodeids[n.entity.id], n);
    }
  }

  ghost predicate ParentsShow(nodes: seq<Account>, ts: seq<Option<AccountTree>>, S: set<object>)
    reads nodes`Parent, S
  {
    |ts| == |nodes| && forall i :: 0 <= i < |nodes| ==> ParentShows(nodes[i].Parent, ts[i], S)
  }

  ghost function LatestOf(keys: seq<int>, ts: seq<AccountTree>, fks: seq<Option<int>>): seq<Option<AccountTree>>
    requires |keys| == |ts|
  {
    seq(|fks|, i requires 0 <= i < |fks| => Latest(keys, ts, |ts|, fks[i]))
  }

  lemma {:induction false} LatestShows(keys: seq<int>, ns: seq<Account>, ts: seq<AccountTree>, k: nat,
          fk: Option<int>, S: set<object>)
    requires k <= |keys| == |ns| && ChildrenShow(ns, ts, S)
    ensures ParentShows(Ref(Latest(keys, ns, k, fk)), Latest(keys, ts, k, fk), S)
  {
    if k > 0 && fk != Some(keys[k - 1]) {
      LatestShows(keys, ns, ts, k - 1, fk, S);
    }
  }

  /** Handing out the neighbours leaves their own graphs alone, so each node now shows its parent's tree. */
  method AttachParents(nodes: seq<Account>, ghost fks: seq<Option<int>>, nodeids: map<int, seq<nat>>,
                       neighbors: seq<Account>, ghost nbs: seq<AccountFields>, ghost loaded: Loaded,
                       ghost ts: seq<AccountTree>, ghost S: set<object>)
    requires Distinct(nodes) && |fks| == |nodes| && Decoded(neighbors, nbs, loaded)
    requires forall i :: 0 <= i < |nodes| ==> nodes[i].Parent == null
    requires Apart(nodes, S) && ChildrenShow(neighbors, ts, S)
    requires Indexed(nodeids, fks) && Wanted(IDs(nbs), fks)
    modifies nodes`Parent
    ensures ParentsShow(nodes, LatestOf(IDs(nbs), ts, fks), S)
  {
    var _ := DistributeParents(nodes, fks, nodeids, neighbors, nbs, loaded);
    forall i | 0 <= i < |nodes|
      ensures ParentShows(nodes[i].Parent, Latest(IDs(nbs), ts, |ts|, fks[i]), S)
    {
      LatestShows(IDs(nbs), neighbors, ts, |ts|, fks[i], S);
    }
  }

  // ---------- O2M ----------

  /** The second half of loadChildren; neither a nil nor an unknown foreign key is ever met. */
  method DistributeChildren(nodes: seq<Account>, ghost ids: seq<int>, nodeids: map<int, nat>,
                            neighbors: seq<Account>, ghost nbs: seq<AccountFields>, ghost loaded: Loaded)
      returns (unexpected: bool)
    requires Distinct(nodes) && |ids| == |nodes| && Decoded(neighbors, nbs, loaded)
    requires Distinct(ids) && IndexedByID(nodeids, ids) && Known(ParentKeys(nbs), ids)
    requires forall i :: 0 <= i < |nodes| ==> nodes[i].Children == []
    modifies nodes`Children
    ensures !unexpected
    ensures forall i :: 0 <= i < |nodes| ==> nodes[i].Children == Part(neighbors, ParentKeys(nbs), ids[i])
  {
    hide Known, IndexedByID, Distinct, Decoded, Last;
    unexpected := false;
    ghost var fks := ParentKeys(nbs);
    DecodedLength(neighbors, nbs, loaded);
    for k := 0 to |neighbors|
      invariant forall i :: 0 <= i < |nodes| ==> nodes[i].Children == Part(neighbors[..k], fks[..k], ids[i])
    {
      var n := neighbors[k];
      var fk := n.entity.parentAccountId;
      assert fk == fks[k] by { DecodedAt(neighbors, nbs, loaded, k); }
      KnownAt(fks, ids, nodeids, k);
      if fk.None? {
        return true;
      }
      if fk.value !in nodeids {
        return true;
      }
      PartStep(neighbors, fks, k);
      AppendChild(nodes, ids, nodeids[fk.value], fk.value, n);
    }
    assert neighbors[..|neighbors|] == neighbors && fks[..|neighbors|] == fks;
  }

  method AppendChild(nodes: seq<Account>, ghost ids: seq<int>, at: nat, ghost fk: int, n: Account)
    requires Distinct(nodes) && Distinct(ids) && |ids| == |nodes|
    requires fk in ids && at == Last(ids, Some(fk))
    modifies nodes`Children
    ensures forall i :: 0 <= i < |nodes| ==>
            nodes[i].Children == old(nodes[i].Children) + if ids[i] == fk then [n] else []
  {
    nodes[at].Children := nodes[at].Children + [n];
  }

  ghost predicate AllChildrenShow(nodes: seq<Account>, ts: seq<seq<AccountTree>>, S: set<object>)
    reads nodes`Children, S
  {
    |ts| == |nodes| && forall i :: 0 <= i < |nodes| ==> ChildrenShow(nodes[i].Children, ts[i], S)
  }

  ghost function PartsOf<T>(ts: seq<T>, fks: seq<Option<int>>, ids: seq<int>): seq<seq<T>>
    requires |ts| == |fks|
  {
    seq(|ids|, i requires 0 <= i < |ids| => Part(ts, fks, ids[i]))
  }

  lemma PartShows(ns: seq<Account>, ts: seq<AccountTree>, fks: seq<Option<int>>, key: int, S: set<object>)
    requires |fks| == |ns| && ChildrenShow(ns, ts, S)
    ensures ChildrenShow(Part(ns, fks, key), Part(ts, fks, key), S)
  {
  }

  method AttachChildren(nodes: seq<Account>, ghost ids: seq<int>, nodeids: map<int, nat>,
                        neighbors: seq<Account>, ghost nbs: seq<AccountFields>, ghost loaded: Loaded,
                        ghost ts: seq<AccountTree>, ghost S: set<object>)
    requires Distinct(nodes) && |ids| == |nodes| && Decoded(neighbors, nbs, loaded)
    requires Distinct(ids) && IndexedByID(nodeids, ids) && Known(ParentKeys(nbs), ids)
    requires forall i :: 0 <= i < |nodes| ==> nodes[i].Children == []
    requires Apart(nodes, S) && ChildrenShow(neighbors, ts, S)
    modifies nodes`Children
    ensures AllChildrenShow(nodes, PartsOf(ts, ParentKeys(nbs), ids), S)
  {
    var _ := DistributeChildren(nodes, ids, nodeids, neighbors, nbs, loaded);
    forall i | 0 <= i < |nodes|
      ensures ChildrenShow(nodes[i].Children, Part(ts, ParentKeys(nbs), ids[i]), S)
    {
      PartShows(neighbors, ts, ParentKeys(nbs), ids[i], S);
    }
  }

  /** The second half of loadAccountGroups. */
  method DistributeJoins(nodes: seq<Account>, ghost ids: seq<int>, nodeids: map<int, nat>,
                         neighbors: seq<AccountGroup>, ghost nbs: seq<JoinFields>)
      returns (unexpected: bool)
    requires Distinct(nodes) && |ids| == |nodes|
    requires |nbs| == |neighbors| && forall k :: 0 <= k < |neighbors| ==> neighbors[k].entity == nbs[k]
    requires Distinct(ids) && IndexedByID(nodeids, ids) && Known(JoinAccountKeys(nbs), ids)
    requires forall i :: 0 <= i < |nodes| ==> nodes[i].AccountGroups == []
    modifies nodes`AccountGroups
    ensures !unexpected
    ensures forall i :: 0 <= i < |nodes| ==> nodes[i].AccountGroups == Part(neighbors, JoinAccountKeys(nbs), ids[i])
  {
    hide Known, IndexedByID, Distinct, Decoded, Last;
    unexpected := false;
    ghost var fks := JoinAccountKeys(nbs);
    for k := 0 to |neighbors|
      invariant forall i :: 0 <= i < |nodes| ==> nodes[i].AccountGroups == Part(neighbors[..k], fks[..k], ids[i])
    {
      var n := neighbors[k];
      var fk := n.entity.accountId;
      assert Some(fk) == fks[k];
      KnownAt(fks, ids, nodeids, k);
      if fk !in nodeids {
        return true;
      }
      PartStep(neighbors, fks, k);
      AppendJoin(nodes, ids, nodeids[fk], fk, n);
    }
    assert neighbors[..|neighbors|] == neighbors && fks[..|neighbors|] == fks;
  }

  method AppendJoin(nodes: seq<Account>, ghost ids: seq<int>, at: nat, ghost fk: int, n: AccountGroup)
    requires Distinct(nodes) && Distinct(ids) && |ids| == |nodes|
    requires fk in ids && at == Last(ids, Some(fk))
    modifies nodes`AccountGroups
    ensures forall i :: 0 <= i < |nodes| ==>
            nodes[i].AccountGroups == old(nodes[i].AccountGroups) + if ids[i] == fk then [n] else []
  {
    nodes[at].AccountGroups := nodes[at].AccountGroups + [n];
  }

  ghost predicate AllJoinsShow(nodes: seq<Account>, ts: seq<seq<JoinTree>>, S: set<object>)
    reads nodes`AccountGroups, S
  {
    |ts| == |nodes| && forall i :: 0 <= i < |nodes| ==> JoinsShow(nodes[i].AccountGroups, ts[i], S)
  }

  lemma PartJoinsShow(ns: seq<AccountGroup>, ts: seq<JoinTree>, fks: seq<Option<int>>, key: int, S: set<object>)
    requires |fks| == |ns| && JoinsShow(ns, ts, S)
    ensures JoinsShow(Part(ns, fks, key), Part(ts, fks, key), S)
  {
  }

  method AttachJoins(nodes: seq<Account>, ghost ids: seq<int>, nodeids: map<int, nat>,
                     neighbors: seq<AccountGroup>, ghost nbs: seq<JoinFields>, ghost ts: seq<JoinTree>,
                         ghost S: set<object>)
    requires Distinct(nodes) && |ids| == |nodes|
    requires |nbs| == |neighbors| && forall k :: 0 <= k < |neighbors| ==> neighbors[k].entity == nbs[k]
    requires Distinct(ids) && IndexedByID(nodeids, ids) && Known(JoinAccountKeys(nbs), ids)
    requires forall i :: 0 <= i < |nodes| ==> nodes[i].AccountGroups == []
    requires Apart(nodes, S) && JoinsShow(neighbors, ts, S)
    modifies nodes`AccountGroups
    ensures AllJoinsShow(nodes, PartsOf(ts, JoinAccountKeys(nbs), ids), S)
  {
    var _ := DistributeJoins(nodes, ids, nodeids, neighbors, nbs);
    forall i | 0 <= i < |nodes|
      ensures JoinsShow(nodes[i].AccountGroups, Part(ts, JoinAccountKeys(nbs), ids[i]), S)
    {
      PartJoinsShow(neighbors, ts, JoinAccountKeys(nbs), ids[i], S);
    }
  }

  // ---------- M2M ----------

  /** The positions in `ids` of the accounts that the stream pairs with a group. */
  ghost predicate WaitingFor(waiting: set<nat>, stream: seq<PairRow>, ids: seq<int>, group: int) {
    forall i: nat :: i in waiting <==> i < |ids| && Paired(stream, ids[i], group)
  }

  /** The M2M index: each group seen so far leads to the nodes that wait for it. */
  ghost predicate IndexedPairs(nids: map<int, set<nat>>, stream: seq<PairRow>, ids: seq<int>) {
    && (forall g :: g in nids <==> HasGroup(Neighbors(stream), g))
    && (forall g :: g in nids ==> WaitingFor(nids[g], stream, ids, g))
  }

  lemma WaitingStep(waiting: set<nat>, stream: seq<PairRow>, k: nat, ids: seq<int>, group: int, pos: nat)
    requires Distinct(ids) && k < |stream| && pos < |ids| && ids[pos] == stream[k].accountId
    requires WaitingFor(waiting, stream[..k], ids, group)
    ensures WaitingFor(if stream[k].group.id == group then waiting + {pos} else waiting, stream[..k + 1], ids, group)
  {
    forall a ensures Paired(stream[..k + 1], a, group) <==>
                     Paired(stream[..k], a, group) || (stream[k].accountId == a && stream[k].group.id == group)
    {
      PairedLast(stream[..k + 1], a, group);
      assert stream[..k + 1][..k] == stream[..k];
    }
  }

  /** The scanning half of loadGroups: which nodes wait for each group, and the groups without repeats. */
  method IndexPairs(stream: seq<PairRow>, ghost ids: seq<int>, byID: map<int, nat>)
      returns (nids: map<int, set<nat>>, neighbors: seq<GroupRow>)
    requires Distinct(ids) && IndexedByID(byID, ids)
    requires forall p :: p in stream ==> p.accountId in ids
    ensures neighbors == Neighbors(stream)
    ensures IndexedPairs(nids, stream, ids)
  {
    nids, neighbors := map[], [];
    for k := 0 to |stream|
      invariant neighbors == Neighbors(stream[..k])
      invariant IndexedPairs(nids, stream[..k], ids)
    {
      var p := stream[k];
      assert p in stream;
      assert stream[..k + 1][..k] == stream[..k];
      ghost var before := nids;
      if p.group.id !in nids {
        forall a { NotPaired(stream[..k], a, p.group.id); }
        before := nids[p.group.id := {}];
        neighbors := neighbors + [p.group];
        HasGroupLast(neighbors);
        nids := nids[p.group.id := {byID[p.accountId]}];
      } else {
        nids := nids[p.group.id := nids[p.group.id] + {byID[p.accountId]}];
      }
      forall g | g in nids
        ensures WaitingFor(nids[g], stream[..k + 1], ids, g)
      {
        WaitingStep(before[g], stream, k, ids, g, byID[p.accountId]);
      }
    }
    assert stream[..|stream|] == stream;
  }

  /** The nodes waiting for one group are visited in no particular order. */
  method AppendGroup(nodes: seq<Account>, waiting: set<nat>, n: GroupRow)
    requires Distinct(nodes) && forall i: nat :: i in waiting ==> i < |nodes|
    modifies nodes`Groups
    ensures forall i :: 0 <= i < |nodes| ==> nodes[i].Groups == old(nodes[i].Groups) + if i in waiting then [n] else []
  {
    var pending := waiting;
    while pending != {}
      invariant pending <= waiting
      invariant forall i :: 0 <= i < |nodes| ==>
              nodes[i].Groups == old(nodes[i].Groups) + if i in waiting - pending then [n] else []
      decreases pending
    {
      var kn :| kn in pending;
      nodes[kn].Groups := nodes[kn].Groups + [n];
      pending := pending - {kn};
    }
  }

  /** The second half of loadGroups. */
  method DistributeGroups(nodes: seq<Account>, ghost ids: seq<int>, ghost stream: seq<PairRow>,
                          nids: map<int, set<nat>>, neighbors: seq<GroupRow>)
      returns (unexpected: bool)
    requires Distinct(nodes) && |ids| == |nodes|
    requires neighbors == Neighbors(stream) && IndexedPairs(nids, stream, ids)
    requires forall i :: 0 <= i < |nodes| ==> nodes[i].Groups == []
    modifies nodes`Groups
    ensures !unexpected
    ensures forall i :: 0 <= i < |nodes| ==> nodes[i].Groups == GroupsOf(stream, ids[i])
  {
    unexpected := false;
    for k := 0 to |neighbors|
      invariant forall i :: 0 <= i < |nodes| ==> nodes[i].Groups == KeepPaired(neighbors[..k], stream, ids[i])
    {
      var n := neighbors[k];
      assert neighbors[..k + 1][..k] == neighbors[..k];
      assert HasGroup(neighbors, n.id);
      if n.id !in nids {
        return true;
      }
      AppendGroup(nodes, nids[n.id], n);
    }
    assert neighbors[..|neighbors|] == neighbors;
  }

  // ---------- A larger footprint does no harm ----------

  lemma ParentsShowMore(nodes: seq<Account>, ts: seq<Option<AccountTree>>, S: set<object>, S': set<object>)
    requires ParentsShow(nodes, ts, S) && S <= S'
    ensures ParentsShow(nodes, ts, S')
  {
    forall i | 0 <= i < |nodes|
      ensures ParentShows(nodes[i].Parent, ts[i], S')
    {
      if ts[i].Some? {
        ShowsMore(nodes[i].Parent, ts[i].value, S, S');
      }
    }
  }

  lemma AllChildrenShowMore(nodes: seq<Account>, ts: seq<seq<AccountTree>>, S: set<object>, S': set<object>)
    requires AllChildrenShow(nodes, ts, S) && S <= S'
    ensures AllChildrenShow(nodes, ts, S')
  {
    forall i | 0 <= i < |nodes|
      ensures ChildrenShow(nodes[i].Children, ts[i], S')
    {
      var cs := nodes[i].Children;
      assert ChildrenShow(cs, ts[i], S);
      forall k | 0 <= k < |cs|
        ensures cs[k] in S' && Shows(cs[k], ts[i][k], S')
      {
        ShowsMore(cs[k], ts[i][k], S, S');
      }
    }
  }

  lemma AllJoinsShowMore(nodes: seq<Account>, ts: seq<seq<JoinTree>>, S: set<object>, S': set<object>)
    requires AllJoinsShow(nodes, ts, S) && S <= S'
    ensures AllJoinsShow(nodes, ts, S')
  {
  }
}
