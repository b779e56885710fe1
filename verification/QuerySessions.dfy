/**
 Sequences of calls on query builders: calls on a builder and on its clone, repeated runs, and First and Only.
 */
module QuerySessions {
  import opened Prelude
  import opened QueryPlans
  import opened Entities
  import opened PlanEdits
  import opened AccountQueries
  import opened EagerLaws
  import opened ReadLaws
  import opened RunLaws

  /**
   A builder and its clone share nothing: after any interleaving of calls and runs on the two, each has become what its
   own calls and runs make of it, the clone starting from the plan without lock modifiers.
   */
  method CloneThenAct(q: AccountQuery, acts: seq<(bool, Act)>) returns (c: AccountQuery)
    requires q.Valid() && Runnable(acts, q.plan)
    modifies q.Repr
    ensures q.Valid() && c.Valid() && q.Repr !! c.Repr && fresh(c.Repr) && fresh(q.Repr - old(q.Repr))
    ensures q.plan == Become(false, acts, |acts|, old(q.plan))
    ensures c.plan == Become(true, acts, |acts|, old(q.plan))
  {
    hide AccountQuery.Valid, Become, UnlockedPlan, After;
    ghost var p := q.plan;
    c := q.Clone();
    BecomeStart(acts, p);
    for i := 0 to |acts|
      invariant q.Valid() && c.Valid() && q.Repr !! c.Repr && fresh(c.Repr) && fresh(q.Repr - old(q.Repr))
      invariant q.plan == Become(false, acts, i, p) && c.plan == Become(true, acts, i, p)
    {
      BecomeNext(acts, i, p);
      if acts[i].0 {
        ActOne(c, q, acts[i].1);
      } else {
        ActOne(q, c, acts[i].1);
      }
    }
  }

  /** An act on one builder leaves another, separate one as it is. */
  method ActOne(q: AccountQuery, other: AccountQuery, act: Act)
    requires q.Valid() && other.Valid() && q.Repr !! other.Repr
    requires act.Run? ==> Keyed(act.db) && FirstRun(q.plan)
    modifies q.Repr
    ensures q.Valid() && other.Valid() && q.Repr !! other.Repr && fresh(q.Repr - old(q.Repr))
    ensures q.plan == After(act, old(q.plan)) && other.plan == old(other.plan) && other.Repr == old(other.Repr)
  {
    hide Edit, AfterAll, Keyed, FirstRun, AccountQuery.Valid, Batch, Exec, AllFails, Decoded, ChildrenShow;
    q.Parts();
    other.Parts();
    match act {
      case Call(op) => q.Call(op);
      case Run(db) => var _, _, _, _ := q.All(db);
    }
    other.StaysValid();
  }

  /**
   What a run returns is, at every level, what the nodes would look up one by one, although it sends no query of the
   plan more than once.
   */
  method LoadGraph(q: AccountQuery, db: Store)
      returns (ok: bool, nodes: seq<Account>, ghost sent: nat, ghost S: set<object>)
    requires q.Valid() && Keyed(db) && FirstRun(q.plan)
    modifies q.Repr
    ensures q.Valid() && q.plan == AfterAll(db, old(q.plan)) && (ok <==> !AllFails(db, old(q.plan)))
    ensures sent <= QueriesIn(old(q.plan))
    ensures ok && NestedWhole(old(q.plan)) ==>
              ChildrenShow(nodes, LookupAll(db, old(q.plan), old(q.plan.fields), Exec(db.accounts, old(q.plan.base))),
                  S)
    ensures ok ==> ObjectsRead(db, old(q.plan), nodes, Exec(db.accounts, old(q.plan.base)), S)
  {
    hide AccountQuery.Valid, Batch, Exec, AllFails, AfterAll, ChildrenShow, NestedWhole, LookupAll, Sent, QueriesIn,
         ObjectsRead;
    ghost var p := q.plan;
    q.Parts();
    ok, nodes, sent, S := q.All(db);
    EachSentOnce(db, p);
    if ok {
      BatchObjects(db, p, nodes, Exec(db.accounts, p.base), S);
    }
    if ok && NestedWhole(p) {
      Refines(db, p, Exec(db.accounts, p.base));
    }
  }

  /**
   Run `n` more times over an unchanged store, whether the runs succeed or fail, a builder without the M2M edge still
   answers as the first run does, and it has become what that many runs make of it.
   */
  method RunAgain(q: AccountQuery, db: Store, n: nat) returns (ok: bool, nodes: seq<Account>, ghost S: set<object>)
    requires q.Valid() && Keyed(db) && NoGroups(q.plan)
    modifies q.Repr
    ensures q.Valid() && q.Repr == old(q.Repr) && q.plan == Runs(db, old(q.plan), n + 1)
    ensures ok <==> !AllFails(db, old(q.plan))
    ensures ok ==> ChildrenShow(nodes, Batch(db, old(q.plan), Exec(db.accounts, old(q.plan.base))), S)
  {
    hide AccountQuery.Valid, Batch, Exec, AllFails, AfterAll, ChildrenShow, NoGroups;
    ghost var p := q.plan;
    q.Parts();
    RunsAgree(db, p, 0);
    ghost var sent;
    ok, nodes, sent, S := q.All(db);
    for i := 0 to n
      invariant q.Valid() && q.Repr == old(q.Repr) && q.plan == Runs(db, p, i + 1)
      invariant ok <==> !AllFails(db, p)
      invariant ok ==> ChildrenShow(nodes, Batch(db, p, Exec(db.accounts, p.base)), S)
    {
      RunsAgree(db, p, i + 1);
      ok, nodes, sent, S := q.All(db);
    }
  }

  datatype Picked = One(account: Account) | Missing | NotSingular | Failed

  /** First sets the limit to one, for good, and takes what the run returns. */
  method First(q: AccountQuery, db: Store) returns (r: Picked, ghost S: set<object>)
    requires q.Valid() && Keyed(db) && FirstRun(q.plan)
    modifies q.Repr
    ensures q.Valid() && q.Repr == old(q.Repr)
    ensures r == Failed <==> AllFails(db, Edit(Op.Limit(1), old(q.plan)))
    ensures q.plan == AfterAll(db, Edit(Op.Limit(1), old(q.plan)))
    ensures r != Failed ==> r != NotSingular && (r == Missing <==> Remaining(db.accounts, old(q.plan.base)) == [])
    ensures r.One? ==>
            Shows(r.account,
            Batch(db, Edit(Op.Limit(1), old(q.plan)), Remaining(db.accounts, old(q.plan.base))[..1])[0], S)
  {
    hide AccountQuery.Valid, Batch, Exec, AllFails, AfterAll, Remaining, Sent, Keyed, FirstRun, Decoded, Shows;
    ghost var base := q.plan.base;
    FirstRunLimit(q.plan, 1);
    OneIsFirst(db.accounts, base);
    q.Parts();
    q.Limit(1);
    var ok, nodes;
    ghost var sent;
    ok, nodes, sent, S := q.All(db);
    if !ok {
      r := Failed;
    } else if |nodes| == 0 {
      r := Missing;
    } else {
      r := One(nodes[0]);
      assert Remaining(db.accounts, base)[..1] == Exec(db.accounts, base.(limit := Some(1)));
    }
  }

  /** Only sets the limit to two: it returns the account exactly if one row remains after the offset. */
  method Only(q: AccountQuery, db: Store) returns (r: Picked, ghost S: set<object>)
    requires q.Valid() && Keyed(db) && FirstRun(q.plan)
    modifies q.Repr
    ensures q.Valid() && q.Repr == old(q.Repr)
    ensures r == Failed <==> AllFails(db, Edit(Op.Limit(2), old(q.plan)))
    ensures q.plan == AfterAll(db, Edit(Op.Limit(2), old(q.plan)))
    ensures r != Failed ==>
              && (r == Missing <==> |Remaining(db.accounts, old(q.plan.base))| == 0)
              && (r.One? <==> |Remaining(db.accounts, old(q.plan.base))| == 1)
              && (r == NotSingular <==> |Remaining(db.accounts, old(q.plan.base))| > 1)
    ensures r.One? ==>
            Shows(r.account, Batch(db, Edit(Op.Limit(2), old(q.plan)), Remaining(db.accounts, old(q.plan.base)))[0], S)
  {
    hide AccountQuery.Valid, Batch, Exec, AllFails, AfterAll, Remaining, Sent, Keyed, FirstRun, Decoded, Shows;
    ghost var base := q.plan.base;
    FirstRunLimit(q.plan, 2);
    TwoTellApart(db.accounts, base);
    q.Parts();
    q.Limit(2);
    var ok, nodes;
    ghost var sent;
    ok, nodes, sent, S := q.All(db);
    if !ok {
      r := Failed;
    } else if |nodes| == 1 {
      r := One(nodes[0]);
      assert Remaining(db.accounts, base) == Exec(db.accounts, base.(limit := Some(2)));
    } else {
      r := if |nodes| == 0 then Missing else NotSingular;
    }
  }

  lemma FirstRunLimit(p: AccountPlan, n: nat)
    requires FirstRun(p)
    ensures FirstRun(Edit(Op.Limit(n), p)) && Edit(Op.Limit(n), p).base == p.base.(limit := Some(n))
  {
  }
}
