/**
 The edge loaders of the identity query: users by a required key, channels and adoption decisions by a required and
 by a nullable foreign key on the neighbour's side. Neighbours are leaves here.
 */
module IdentityQueries {
  import opened Prelude
  import opened HashJoin
  import opened QueryPlans
  import opened EagerLaws
  import opened EdgeLaws

  datatype UserRow = UserRow(id: int, cells: map<string, string>)

  /** A row of "auth_identity_channels" or "identity_adoption_decisions"; only the latter's key can be NULL. */
  datatype OwnedRow = OwnedRow(id: int, identityId: Option<int>, cells: map<string, string>)

  datatype Owned = Owned(id: int, identityId: Option<int>)

  datatype OwnedPlan = OwnedPlan(base: Settings<OwnedRow>, fields: seq<string>)

  const IDENTITY_ID := "identity_id"

  function UserId(r: UserRow): Option<int> { Some(r.id) }
  function IdentityColumn(r: OwnedRow): Option<int> { r.identityId }

  function UserIDs(rows: seq<UserRow>): (ks: seq<int>)
    ensures |ks| == |rows| && forall i :: 0 <= i < |rows| ==> ks[i] == rows[i].id
  {
    seq(|rows|, i requires 0 <= i < |rows| => rows[i].id)
  }

  /** A key that is not selected keeps its zero value `zero`. */
  function DecodeOwned(fields: seq<string>, zero: Option<int>, rows: seq<OwnedRow>): (es: seq<Owned>)
    ensures |es| == |rows|
    ensures forall i :: 0 <= i < |rows| ==>
              es[i] == Owned(rows[i].id, if fields == [] || "identity_id" in fields then rows[i].identityId else zero)
  {
    seq(|rows|, i requires 0 <= i < |rows| =>
      Owned(rows[i].id, if fields == [] || IDENTITY_ID in fields then rows[i].identityId else zero))
  }

  function OwnedKeys(es: seq<Owned>): (ks: seq<Option<int>>)
    ensures |ks| == |es| && forall i :: 0 <= i < |es| ==> ks[i] == es[i].identityId
  {
    seq(|es|, i requires 0 <= i < |es| => es[i].identityId)
  }

  function PushIdentities(q: OwnedPlan, ids: seq<int>): OwnedPlan {
    q.(fields := if q.fields == [] then [] else AppendOnce(q.fields, IDENTITY_ID),
       base := Push(q.base, InValues(IdentityColumn, ids)))
  }

  /** What a run of the pushed sub-query decodes. */
  function Neighbours(table: Table<OwnedRow>, q: OwnedPlan, ids: seq<int>, zero: Option<int>): seq<Owned> {
    var q' := PushIdentities(q, ids);
    DecodeOwned(q'.fields, zero, Exec(table, q'.base))
  }

  class AuthIdentity {
    const id: int
    const userId: int
    var User: Option<UserRow>
    var Channels: seq<Owned>
    var AdoptionDecisions: seq<Owned>

    constructor (id: int, userId: int)
      ensures this.id == id && this.userId == userId && User == None && Channels == [] && AdoptionDecisions == []
    {
      this.id, this.userId := id, userId;
      User, Channels, AdoptionDecisions := None, [], [];
    }
  }

  ghost predicate Hold(nodes: seq<AuthIdentity>, ids: seq<int>) {
    Distinct(nodes) && |ids| == |nodes| && forall i :: 0 <= i < |nodes| ==> nodes[i].id == ids[i]
  }

  method AssignUser(nodes: seq<AuthIdentity>, waiting: seq<nat>, n: UserRow)
    requires Distinct(nodes) && forall m :: 0 <= m < |waiting| ==> waiting[m] < |nodes|
    modifies nodes`User
    ensures forall i :: 0 <= i < |nodes| ==> nodes[i].User == if i in waiting then Some(n) else old(nodes[i].User)
  {
    for m := 0 to |waiting|
      invariant forall i :: 0 <= i < |nodes| ==>
              nodes[i].User == if i in waiting[..m] then Some(n) else old(nodes[i].User)
    {
      nodes[waiting[m]].User := Some(n);
    }
  }

  function UserKeys(nodes: seq<AuthIdentity>): seq<Option<int>> {
    seq(|nodes|, i requires 0 <= i < |nodes| => Some(nodes[i].userId))
  }

  function UserBatch(users: Table<UserRow>, q: Settings<UserRow>, fks: seq<Option<int>>): seq<UserRow> {
    Exec(users, Push(q, InValues(UserId, FirstUse(fks))))
  }

  /** loadUser: every identity gets the user of its key that the batch query found. */
  method LoadUser(users: Table<UserRow>, query: Settings<UserRow>, nodes: seq<AuthIdentity>)
      returns (unexpected: bool, query': Settings<UserRow>)
    requires Distinct(nodes) && forall i :: 0 <= i < |nodes| ==> nodes[i].User == None
    modifies nodes`User
    ensures !unexpected
    ensures query' == if nodes == [] then query else Push(query, InValues(UserId, FirstUse(UserKeys(nodes))))
    ensures var nb := UserBatch(users, query, UserKeys(nodes));
            forall i :: 0 <= i < |nodes| ==> nodes[i].User == Latest(UserIDs(nb), nb, |nb|, Some(nodes[i].userId))
  {
    hide Exec, FirstUse, Indexed, Wanted, Positions, Distinct;
    unexpected, query' := false, query;
    var fks := UserKeys(nodes);
    var ids, nodeids := CollectKeys(fks);
    SomeUser(fks);
    if |ids| == 0 {
      return;
    }
    query' := Push(query, InValues(UserId, ids));
    var neighbors := Exec(users, query');
    UsersWanted(users, query, fks);
    ghost var keys := UserIDs(neighbors);
    for k := 0 to |neighbors|
      invariant forall i :: 0 <= i < |nodes| ==> nodes[i].User == Latest(keys, neighbors, k, fks[i])
    {
      var n := neighbors[k];
      WantedAt(keys, fks, nodeids, k);
      if n.id !in nodeids {
        return true, query';
      }
      AssignUser(nodes, nodeids[n.id], n);
    }
  }

  function LookupUser(users: Table<UserRow>, q: Settings<UserRow>, id: int): Option<UserRow> {
    Head(Exec(users, Push(q, InValues(UserId, [id]))))
  }

  lemma SomeUser(fks: seq<Option<int>>)
    requires forall i :: 0 <= i < |fks| ==> fks[i].Some?
    ensures FirstUse(fks) == [] <==> fks == []
  {
    if fks != [] {
      UsedKey(fks, 0);
    }
  }

  lemma UsersWanted(users: Table<UserRow>, q: Settings<UserRow>, fks: seq<Option<int>>)
    ensures Wanted(UserIDs(Exec(users, Push(q, InValues(UserId, FirstUse(fks))))), fks)
  {
    var rows := Exec(users, Push(q, InValues(UserId, FirstUse(fks))));
    PushedHolds(users, q, InValues(UserId, FirstUse(fks)));
    assert forall i :: 0 <= i < |rows| ==> rows[i] in rows;
  }

  /** The user that the index picks is the one its own lookup finds. */
  lemma UserExactly(users: Table<UserRow>, q: Settings<UserRow>, fks: seq<Option<int>>, i: nat)
    requires Whole(q) && DistinctKeys(UserId, users(q.order)) && i < |fks| && fks[i].Some?
    ensures var nb := UserBatch(users, q, fks);
            Latest(UserIDs(nb), nb, |nb|, fks[i]) == LookupUser(users, q, fks[i].value)
  {
    var nb := Exec(users, Push(q, InValues(UserId, FirstUse(fks))));
    UsedKey(fks, i);
    PickOne(users, q, UserId, FirstUse(fks), UserIDs(nb), fks[i].value);
    LatestIs(UserIDs(nb), nb, fks[i]);
  }

  method LoadChannels(table: Table<OwnedRow>, query: OwnedPlan, nodes: seq<AuthIdentity>, ghost ids: seq<int>)
      returns (unexpected: bool, query': OwnedPlan)
    requires Hold(nodes, ids) && Distinct(ids)
    modifies nodes`Channels
    ensures !unexpected && query' == PushIdentities(query, ids)
    ensures var nb := Neighbours(table, query, ids, Some(0));
            forall i :: 0 <= i < |nodes| ==> nodes[i].Channels == Part(nb, OwnedKeys(nb), ids[i])
  {
    hide Exec, IndexedByID, Known, Part, Last;
    unexpected := false;
    var keys := seq(|nodes|, i requires 0 <= i < |nodes| => nodes[i].id);
    assert keys == ids;
    var nodeids := IndexByID(keys);
    for i := 0 to |nodes|
      invariant forall j :: 0 <= j < i ==> nodes[j].Channels == []
    {
      nodes[i].Channels := [];
    }
    query' := PushIdentities(query, keys);
    var neighbors := DecodeOwned(query'.fields, Some(0), Exec(table, query'.base));
    OwnersKnown(table, query, keys, Some(0));
    ghost var fks := OwnedKeys(neighbors);
    assert forall id :: Part(neighbors[..0], fks[..0], id) == [] by { NoPart(neighbors, fks); }
    for k := 0 to |neighbors|
      invariant forall i :: 0 <= i < |nodes| ==> nodes[i].Channels == Part(neighbors[..k], fks[..k], ids[i])
    {
      var n := neighbors[k];
      KnownAt(fks, ids, nodeids, k);
      if n.identityId.value !in nodeids {
        return true, query';
      }
      PartStep(neighbors, fks, k);
      AppendChannel(nodes, ids, nodeids[n.identityId.value], n.identityId.value, n);
    }
    assert neighbors[..|neighbors|] == neighbors && fks[..|neighbors|] == fks;
  }

  method AppendChannel(nodes: seq<AuthIdentity>, ghost ids: seq<int>, at: nat, ghost fk: int, n: Owned)
    requires Distinct(nodes) && Distinct(ids) && |ids| == |nodes| && fk in ids && at == Last(ids, Some(fk))
    modifies nodes`Channels
    ensures forall i :: 0 <= i < |nodes| ==>
            nodes[i].Channels == old(nodes[i].Channels) + if ids[i] == fk then [n] else []
  {
    nodes[at].Channels := nodes[at].Channels + [n];
  }

  /** loadAdoptionDecisions: a decision without an identity is an error that the pushed condition rules out. */
  method LoadAdoptionDecisions(table: Table<OwnedRow>, query: OwnedPlan, nodes: seq<AuthIdentity>, ghost ids: seq<int>)
      returns (unexpected: bool, query': OwnedPlan)
    requires Hold(nodes, ids) && Distinct(ids)
    modifies nodes`AdoptionDecisions
    ensures !unexpected && query' == PushIdentities(query, ids)
    ensures var nb := Neighbours(table, query, ids, None);
            forall i :: 0 <= i < |nodes| ==> nodes[i].AdoptionDecisions == Part(nb, OwnedKeys(nb), ids[i])
  {
    hide Exec, IndexedByID, Known, Part, Last;
    unexpected := false;
    var keys := seq(|nodes|, i requires 0 <= i < |nodes| => nodes[i].id);
    assert keys == ids;
    var nodeids := IndexByID(keys);
    for i := 0 to |nodes|
      invariant forall j :: 0 <= j < i ==> nodes[j].AdoptionDecisions == []
    {
      nodes[i].AdoptionDecisions := [];
    }
    query' := PushIdentities(query, keys);
    var neighbors := DecodeOwned(query'.fields, None, Exec(table, query'.base));
    OwnersKnown(table, query, keys, None);
    ghost var fks := OwnedKeys(neighbors);
    assert forall id :: Part(neighbors[..0], fks[..0], id) == [] by { NoPart(neighbors, fks); }
    for k := 0 to |neighbors|
      invariant forall i :: 0 <= i < |nodes| ==> nodes[i].AdoptionDecisions == Part(neighbors[..k], fks[..k], ids[i])
    {
      var n := neighbors[k];
      KnownAt(fks, ids, nodeids, k);
      if n.identityId.None? {
        return true, query';
      }
      if n.identityId.value !in nodeids {
        return true, query';
      }
      PartStep(neighbors, fks, k);
      AppendDecision(nodes, ids, nodeids[n.identityId.value], n.identityId.value, n);
    }
    assert neighbors[..|neighbors|] == neighbors && fks[..|neighbors|] == fks;
  }

  method AppendDecision(nodes: seq<AuthIdentity>, ghost ids: seq<int>, at: nat, ghost fk: int, n: Owned)
    requires Distinct(nodes) && Distinct(ids) && |ids| == |nodes| && fk in ids && at == Last(ids, Some(fk))
    modifies nodes`AdoptionDecisions
    ensures forall i :: 0 <= i < |nodes| ==>
            nodes[i].AdoptionDecisions == old(nodes[i].AdoptionDecisions) + if ids[i] == fk then [n] else []
  {
    nodes[at].AdoptionDecisions := nodes[at].AdoptionDecisions + [n];
  }

  lemma NoPart<T>(xs: seq<T>, fks: seq<Option<int>>)
    ensures forall id :: Part(xs[..0], fks[..0], id) == []
  {
  }

  lemma OwnersKnown(table: Table<OwnedRow>, q: OwnedPlan, ids: seq<int>, zero: Option<int>)
    ensures Known(OwnedKeys(Neighbours(table, q, ids, zero)), ids)
  {
    var rows := Exec(table, PushIdentities(q, ids).base);
    PushedHolds(table, q.base, InValues(IdentityColumn, ids));
    assert forall i :: 0 <= i < |rows| ==> rows[i] in rows;
  }

  /**
   Whatever fields were selected and whether or not the key can be NULL, an identity's part is what its own query finds.
   */
  lemma OwnedExactly(table: Table<OwnedRow>, q: OwnedPlan, ids: seq<int>, id: int, zero: Option<int>)
    requires Whole(q.base) && id in ids
    ensures var nb := Neighbours(table, q, ids, zero);
            Part(nb, OwnedKeys(nb), id) ==
            DecodeOwned(PushIdentities(q, ids).fields, zero, Exec(table, Push(q.base, InValues(IdentityColumn, [id]))))
  {
    hide Exec;
    var rows := Exec(table, PushIdentities(q, ids).base);
    var nb := Neighbours(table, q, ids, zero);
    assert OwnedKeys(nb) == Keys(IdentityColumn, rows);
    ExecPart(table, q.base, IdentityColumn, ids, id);
  }

  /** The identities' parts lose no neighbour and repeat none; each keeps the order of the run. */
  lemma OwnedSplit(table: Table<OwnedRow>, q: OwnedPlan, ids: seq<int>, zero: Option<int>)
    requires Distinct(ids)
    ensures var nb := Neighbours(table, q, ids, zero);
            && Total(nb, OwnedKeys(nb), ids) == multiset(nb)
            && forall id ::
                Part(nb, OwnedKeys(nb), id) == Gather(nb, Positions(OwnedKeys(nb), id)) &&
                Ascending(Positions(OwnedKeys(nb), id))
  {
    hide Neighbours, Known, Part;
    var nb := Neighbours(table, q, ids, zero);
    OwnersKnown(table, q, ids, zero);
    PartsSplit(nb, OwnedKeys(nb), ids);
  }
}
