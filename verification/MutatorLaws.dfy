/**
 Laws of the mutator chain, over every list of builders, every list of hooks and every answer of the database:
 how often the batch insert runs, how the events nest, which builders end up done, and the exact run when every
 hook passes through.
 */
module MutatorLaws {
  import opened Prelude
  import opened AccountRows
  import opened AccountCreation
  import opened Mutators

  // ---------- How often the batch insert runs ----------

  function Inserts(trace: seq<Event>): nat {
    if trace == [] then 0
    else Inserts(trace[..|trace| - 1]) + if trace[|trace| - 1].Insert? then 1 else 0
  }

  lemma InsertsLog(s: State, e: Event)
    ensures Inserts(Log(s, e).trace) == Inserts(s.trace) + if e.Insert? then 1 else 0
  {
    assert Log(s, e).trace[..|s.trace|] == s.trace;
  }

  lemma BatchInserts(c: Bulk, s: State)
    requires Ready(c, |c.builders|, s)
    ensures Inserts(BatchCreate(c, s).0.trace) == Inserts(s.trace) + 1
  {
    InsertsLog(s, Insert(Rows(c, s), c.driver(s.trace, Rows(c, s))));
  }

  /** The product of the calls that the hooks from (i, h) inwards allow. */
  function Budget(c: Bulk, i: nat, h: nat): nat
    requires i < |c.builders| && h <= |c.builders[i].hooks|
    decreases |c.builders| - i, |c.builders[i].hooks| - h
  {
    if h < |c.builders[i].hooks| then c.builders[i].hooks[h].most * Budget(c, i, h + 1)
    else if i < |c.builders| - 1 then Budget(c, i + 1, 0)
    else 1
  }

  lemma {:induction false} ChainBudget(c: Bulk, i: nat, h: nat, s: State)
    requires i < |c.builders| && h <= |c.builders[i].hooks| && Ready(c, i, s)
    ensures Inserts(Chain(c, i, h, s).0.trace) <= Inserts(s.trace) + Budget(c, i, h)
    decreases |c.builders| - i, 2 * (|c.builders[i].hooks| - h) + 1, 0
  {
    hide Inserts, Core, Calls;
    if h == |c.builders[i].hooks| {
      CoreBudget(c, i, s);
    } else {
      var s1 := Log(s, Enter(i, h));
      var (s', outs) := Calls(c, i, h, [], s1);
      InsertsLog(s, Enter(i, h));
      CallsBudget(c, i, h, [], s1);
      InsertsLog(s', Leave(i, h, c.builders[i].hooks[h].reply(s'.trace, outs)));
    }
  }

  lemma BudgetInside(c: Bulk, i: nat)
    requires i < |c.builders|
    ensures Budget(c, i, |c.builders[i].hooks|) == if i < |c.builders| - 1 then Budget(c, i + 1, 0) else 1
  {
  }

  lemma {:induction false} CoreBudget(c: Bulk, i: nat, s: State)
    requires i < |c.builders| && Ready(c, i, s)
    ensures Inserts(Core(c, i, s).0.trace) <= Inserts(s.trace) + Budget(c, i, |c.builders[i].hooks|)
    decreases |c.builders| - i, 0, 0
  {
    hide Inserts, Chain, BatchCreate, Budget, Flaw;
    BudgetInside(c, i);
    if Flaw(c, i, s).None? {
      var s' := Prepared(c, i, s);
      if i < |c.builders| - 1 {
        ChainBudget(c, i + 1, 0, s');
      } else {
        BatchInserts(c, s');
      }
    }
  }

  lemma Peel(left: nat, b: nat)
    ensures 0 <= left * b
    ensures left * b == b + (left - 1) * b
  {
  }

  lemma {:induction false} CallsBudget(c: Bulk, i: nat, h: nat, outs: seq<Outcome>, s: State)
    requires i < |c.builders| && h < |c.builders[i].hooks| && Ready(c, i, s) && |outs| <= c.builders[i].hooks[h].most
    ensures Inserts(Calls(c, i, h, outs, s).0.trace) <= Inserts(s.trace) +
            (c.builders[i].hooks[h].most - |outs|) * Budget(c, i, h + 1)
    decreases |c.builders| - i, 2 * (|c.builders[i].hooks| - h), c.builders[i].hooks[h].most - |outs|
  {
    hide Inserts, Chain, Budget, Ready;
    var hook := c.builders[i].hooks[h];
    var left, b := hook.most - |outs|, Budget(c, i, h + 1);
    Peel(left, b);
    if left > 0 && hook.again(s.trace, outs) {
      var e := Edited(c, i, h, outs, s);
      var (s', o) := Chain(c, i, h + 1, e);
      ChainBudget(c, i, h + 1, e);
      CallsBudget(c, i, h, outs + [o], s');
    }
  }

  /** A hook that uses every call it has, whatever the answers. */
  ghost predicate Insists(hook: Hook) {
    forall t, outs :: hook.again(t, outs)
  }

  ghost predicate AllInsist(c: Bulk) {
    forall i, h :: 0 <= i < |c.builders| && 0 <= h < |c.builders[i].hooks| ==> Insists(c.builders[i].hooks[h])
  }

  /** No edit makes a valid mutation invalid. */
  ghost predicate Careful(c: Bulk) {
    forall i, h, t, outs, m: Mutation ::
      0 <= i < |c.builders| && 0 <= h < |c.builders[i].hooks| && Check(c.schema, m.values).None? ==>
        Check(c.schema, c.builders[i].hooks[h].edit(t, outs, m).values).None?
  }

  /** The builders from `i` on are valid as they are now. */
  ghost predicate ValidNow(c: Bulk, i: nat, s: State) {
    |s.drafts| == |c.builders| && forall j :: i <= j < |c.builders| ==> Flaw(c, j, s).None?
  }

  lemma EditedValid(c: Bulk, i: nat, h: nat, outs: seq<Outcome>, s: State)
    requires i < |c.builders| && h < |c.builders[i].hooks| && Ready(c, i, s) && Careful(c) && ValidNow(c, i, s)
    ensures ValidNow(c, i, Edited(c, i, h, outs, s))
  {
    hide Check;
    var e := Edited(c, i, h, outs, s);
    assert Flaw(c, i, s).None?;
    forall j | i <= j < |c.builders|
      ensures Flaw(c, j, e).None?
    {
      assert Flaw(c, j, s).None?;
    }
  }

  /**
   The bound is met: hooks that use all their calls on builders that are valid, and stay so, insert as often as the
   product says.
   */
  lemma {:induction false} ChainBudgetMet(c: Bulk, i: nat, h: nat, s: State)
    requires i < |c.builders| && h <= |c.builders[i].hooks| && Ready(c, i, s)
    requires AllInsist(c) && Careful(c) && ValidNow(c, i, s)
    ensures var s' := Chain(c, i, h, s).0; ValidNow(c, i, s') && Inserts(s'.trace) == Inserts(s.trace) + Budget(c, i, h)
    decreases |c.builders| - i, 2 * (|c.builders[i].hooks| - h) + 1, 0
  {
    hide Inserts, Core, Calls, Check, Careful, AllInsist;
    if h == |c.builders[i].hooks| {
      CoreBudgetMet(c, i, s);
    } else {
      var s1 := Log(s, Enter(i, h));
      var (s', outs) := Calls(c, i, h, [], s1);
      InsertsLog(s, Enter(i, h));
      SameDrafts(c, i, s, s1);
      CallsBudgetMet(c, i, h, [], s1);
      InsertsLog(s', Leave(i, h, c.builders[i].hooks[h].reply(s'.trace, outs)));
      SameDrafts(c, i, s', Chain(c, i, h, s).0);
    }
  }

  lemma SameDrafts(c: Bulk, i: nat, s: State, s': State)
    requires ValidNow(c, i, s) && s'.drafts == s.drafts
    ensures ValidNow(c, i, s')
  {
    hide Check;
    assert forall j :: i <= j < |c.builders| ==> Flaw(c, j, s') == Flaw(c, j, s);
  }

  lemma {:induction false} CoreBudgetMet(c: Bulk, i: nat, s: State)
    requires i < |c.builders| && Ready(c, i, s) && AllInsist(c) && Careful(c) && ValidNow(c, i, s)
    ensures var s' := Core(c, i, s).0;
            ValidNow(c, i, s') && Inserts(s'.trace) == Inserts(s.trace) + Budget(c, i, |c.builders[i].hooks|)
    decreases |c.builders| - i, 0, 0
  {
    hide Inserts, Chain, BatchCreate, Budget, Check, Careful, AllInsist;
    BudgetInside(c, i);
    assert Flaw(c, i, s).None?;
    var s1 := Prepared(c, i, s);
    SameDrafts(c, i, s, s1);
    if i < |c.builders| - 1 {
      ChainBudgetMet(c, i + 1, 0, s1);
      ChainKeeps(c, i + 1, 0, s1);
    } else {
      BatchInserts(c, s1);
      BatchKeeps(c, s1);
    }
    var s2 := Rest(c, i, s1).0;
    assert s2.drafts[i] == s1.drafts[i];
    assert Flaw(c, i, s2).None?;
    SameDrafts(c, i, s2, Core(c, i, s).0);
  }

  lemma {:induction false} CallsBudgetMet(c: Bulk, i: nat, h: nat, outs: seq<Outcome>, s: State)
    requires i < |c.builders| && h < |c.builders[i].hooks| && Ready(c, i, s) && |outs| <= c.builders[i].hooks[h].most
    requires AllInsist(c) && Careful(c) && ValidNow(c, i, s)
    ensures var s' := Calls(c, i, h, outs, s).0;
            && ValidNow(c, i, s')
            && Inserts(s'.trace) ==
                Inserts(s.trace) + (c.builders[i].hooks[h].most - |outs|) * Budget(c, i, h + 1)
    decreases |c.builders| - i, 2 * (|c.builders[i].hooks| - h), c.builders[i].hooks[h].most - |outs|
  {
    hide Inserts, Chain, Budget, Ready, ValidNow, Careful, Edited;
    var hook := c.builders[i].hooks[h];
    var left, b := hook.most - |outs|, Budget(c, i, h + 1);
    Peel(left, b);
    assert Insists(hook);
    if left > 0 {
      var e := Edited(c, i, h, outs, s);
      EditedValid(c, i, h, outs, s);
      var (s', o) := Chain(c, i, h + 1, e);
      ChainBudgetMet(c, i, h + 1, e);
      CallsBudgetMet(c, i, h, outs + [o], s');
    }
  }

  ghost predicate AtMostOnce(c: Bulk) {
    forall i, h :: 0 <= i < |c.builders| && 0 <= h < |c.builders[i].hooks| ==> c.builders[i].hooks[h].most <= 1
  }

  lemma {:induction false} BudgetOne(c: Bulk, i: nat, h: nat)
    requires i < |c.builders| && h <= |c.builders[i].hooks| && AtMostOnce(c)
    ensures Budget(c, i, h) <= 1
    decreases |c.builders| - i, |c.builders[i].hooks| - h
  {
    if h < |c.builders[i].hooks| {
      BudgetOne(c, i, h + 1);
    } else if i < |c.builders| - 1 {
      BudgetOne(c, i + 1, 0);
    }
  }

  /** If each hook calls the rest at most once, the batch insert runs at most once: whatever fails, and wherever. */
  lemma BatchesOnce(c: Bulk)
    requires AtMostOnce(c)
    ensures Inserts(Run(c).0.trace) <= 1
  {
    if c.builders != [] {
      ChainBudget(c, 0, 0, Start(c));
      BudgetOne(c, 0, 0);
    }
  }

  // ---------- What a part of the chain leaves alone ----------

  /**
   From `s` to `s'` nothing changed for the builders before `i` but the keys in their entries; no builder stops being
   done.
   */
  ghost predicate Kept(i: nat, s: State, s': State) {
    && |s.drafts| == |s.specs| == |s.nodes| == |s.done| == |s.ids| && i <= |s.specs|
    && |s'.drafts| == |s'.specs| == |s'.nodes| == |s'.done| == |s'.ids| == |s.ids|
    && (forall j :: 0 <= j < i ==>
        s'.drafts[j] == s.drafts[j] && s'.nodes[j] == s.nodes[j] && s'.done[j] == s.done[j] && s'.ids[j] == s.ids[j])
    && (forall j :: 0 <= j < i && s.specs[j].Some? ==>
        s'.specs[j].Some? && s'.specs[j].value.spec == s.specs[j].value.spec)
    && (forall j :: 0 <= j < |s.done| && s.done[j] ==> s'.done[j])
  }

  lemma KeptTrans(i: nat, j: nat, s1: State, s2: State, s3: State)
    requires i <= j && Kept(i, s1, s2) && Kept(j, s2, s3)
    ensures Kept(i, s1, s3)
  {
  }

  lemma BatchKeeps(c: Bulk, s: State)
    requires Ready(c, |c.builders|, s)
    ensures Kept(|c.builders|, s, BatchCreate(c, s).0)
  {
  }

  lemma PreparedKeeps(c: Bulk, i: nat, s: State)
    requires i < |c.builders| && Ready(c, i, s)
    ensures Kept(i, s, Prepared(c, i, s))
  {
  }

  lemma FinishedKeeps(c: Bulk, i: nat, s: State)
    requires i < |c.builders| && Ready(c, i + 1, s)
    ensures Kept(i, s, Finished(c, i, s))
  {
  }

  lemma {:induction false} ChainKeeps(c: Bulk, i: nat, h: nat, s: State)
    requires i < |c.builders| && h <= |c.builders[i].hooks| && Ready(c, i, s)
    ensures Kept(i, s, Chain(c, i, h, s).0)
    decreases |c.builders| - i, 2 * (|c.builders[i].hooks| - h) + 1, 0
  {
    hide Core, Calls;
    if h == |c.builders[i].hooks| {
      CoreKeeps(c, i, s);
    } else {
      CallsKeep(c, i, h, [], Log(s, Enter(i, h)));
    }
  }

  lemma {:induction false} CoreKeeps(c: Bulk, i: nat, s: State)
    requires i < |c.builders| && Ready(c, i, s)
    ensures Kept(i, s, Core(c, i, s).0)
    decreases |c.builders| - i, 0, 0
  {
    hide Chain, BatchCreate, Kept, Prepared, Finished, Rest, Flaw;
    if Flaw(c, i, s).None? {
      var s1 := Prepared(c, i, s);
      var (s2, err) := Rest(c, i, s1);
      PreparedKeeps(c, i, s);
      RestKeeps(c, i, s1);
      KeptTrans(i, i + 1, s, s1, s2);
      if err.None? {
        FinishedKeeps(c, i, s2);
        KeptTrans(i, i, s, s2, Finished(c, i, s2));
      }
    } else {
      KeptSame(c, i, s);
    }
  }

  lemma KeptSame(c: Bulk, i: nat, s: State)
    requires Ready(c, i, s)
    ensures Kept(i, s, s)
  {
  }

  lemma {:induction false} RestKeeps(c: Bulk, i: nat, s: State)
    requires Ready(c, i + 1, s)
    ensures Kept(i + 1, s, Rest(c, i, s).0)
    decreases |c.builders| - i - 1, 2 * (if i + 1 < |c.builders| then |c.builders[i + 1].hooks| else 0) + 2, 0
  {
    hide Chain, BatchCreate, Kept;
    if i < |c.builders| - 1 {
      ChainKeeps(c, i + 1, 0, s);
    } else {
      BatchKeeps(c, s);
    }
  }

  lemma EditedKeeps(c: Bulk, i: nat, h: nat, outs: seq<Outcome>, s: State)
    requires i < |c.builders| && h < |c.builders[i].hooks| && Ready(c, i, s)
    ensures Kept(i, s, Edited(c, i, h, outs, s))
  {
    hide Edited;
  }

  lemma {:induction false} CallsKeep(c: Bulk, i: nat, h: nat, outs: seq<Outcome>, s: State)
    requires i < |c.builders| && h < |c.builders[i].hooks| && Ready(c, i, s)
    ensures Kept(i, s, Calls(c, i, h, outs, s).0)
    decreases |c.builders| - i, 2 * (|c.builders[i].hooks| - h), c.builders[i].hooks[h].most - |outs|
  {
    hide Chain, Kept;
    var hook := c.builders[i].hooks[h];
    if |outs| < hook.most && hook.again(s.trace, outs) {
      var e := Edited(c, i, h, outs, s);
      var (s', o) := Chain(c, i, h + 1, e);
      ChainKeeps(c, i, h + 1, e);
      EditedKeeps(c, i, h, outs, s);
      KeptTrans(i, i, s, e, s');
      CallsKeep(c, i, h, outs + [o], s');
      KeptTrans(i, i, s, s', Calls(c, i, h, outs + [o], s').0);
    } else {
      KeptSame(c, i, s);
    }
  }

  // ---------- The shape of a failure ----------

  /** With the answers `outs` so far, the hook makes no further call. */
  predicate Stops(hook: Hook, t: seq<Event>, outs: seq<Outcome>) {
    |outs| <= hook.most && (|outs| == hook.most || !hook.again(t, outs))
  }

  lemma {:induction false} CallsStop(c: Bulk, i: nat, h: nat, outs: seq<Outcome>, s: State)
    requires i < |c.builders| && h < |c.builders[i].hooks| && Ready(c, i, s) && |outs| <= c.builders[i].hooks[h].most
    ensures var (s', outs') := Calls(c, i, h, outs, s); Stops(c.builders[i].hooks[h], s'.trace, outs')
    decreases c.builders[i].hooks[h].most - |outs|
  {
    hide Chain;
    var hook := c.builders[i].hooks[h];
    if |outs| < hook.most && hook.again(s.trace, outs) {
      var e := Edited(c, i, h, outs, s);
      var (s', o) := Chain(c, i, h + 1, e);
      CallsStop(c, i, h, outs + [o], s');
    }
  }

  /**
   The hook reports success only if the last of its calls succeeded. Failing before or after the call, and trying again,
   are allowed.
   */
  ghost predicate Honest(hook: Hook) {
    forall t, outs: seq<Outcome> :: Stops(hook, t, outs) && hook.reply(t, outs).Saved? ==>
        outs != [] && outs[|outs| - 1].Saved?
  }

  /** The hooks of the builders from `k` on are honest. */
  ghost predicate HonestFrom(c: Bulk, k: nat) {
    forall i, h :: k <= i < |c.builders| && 0 <= h < |c.builders[i].hooks| ==> Honest(c.builders[i].hooks[h])
  }

  function LastReply(trace: seq<Event>): Option<Reply> {
    if trace == [] then None
    else if trace[|trace| - 1].Insert? then Some(trace[|trace| - 1].reply)
    else LastReply(trace[..|trace| - 1])
  }

  predicate SomeInserted(trace: seq<Event>) {
    exists k :: 0 <= k < |trace| && trace[k].Insert? && trace[k].reply.Inserted?
  }

  lemma ReplyLog(s: State, e: Event)
    ensures LastReply(Log(s, e).trace) == if e.Insert? then Some(e.reply) else LastReply(s.trace)
    ensures SomeInserted(s.trace) ==> SomeInserted(Log(s, e).trace)
    ensures e.Insert? && e.reply.Inserted? ==> SomeInserted(Log(s, e).trace)
  {
    var t := Log(s, e).trace;
    assert t[..|s.trace|] == s.trace && t[|s.trace|] == e;
    if SomeInserted(s.trace) {
      var k :| 0 <= k < |s.trace| && s.trace[k].Insert? && s.trace[k].reply.Inserted?;
      assert t[k] == s.trace[k];
    }
  }

  /** The builders marked done are a suffix, and there are none before the batch insert has succeeded. */
  ghost predicate Suffix(s: State) {
    && (forall j, k :: 0 <= j <= k < |s.done| && s.done[j] ==> s.done[k])
    && (forall j :: 0 <= j < |s.done| && s.done[j] ==> SomeInserted(s.trace))
  }

  function KeyOf(e: Entry): int {
    if e.id.Some? then e.id.value else 0
  }

  /** The last batch insert succeeded, and every entry has the key it was given. */
  ghost predicate KeysGiven(s: State) {
    && LastReply(s.trace).Some? && LastReply(s.trace).value.Inserted?
    && forall j :: 0 <= j < |s.specs| && s.specs[j].Some? && LastReply(s.trace).value.ids(j).Some? ==>
         s.specs[j].value.id == LastReply(s.trace).value.ids(j)
  }

  /** The builders from `i` on are done; node and mutation carry the key of the entry. */
  ghost predicate Landed(c: Bulk, i: nat, s: State) {
    && Ready(c, i, s) && KeysGiven(s)
    && forall j :: i <= j < |c.builders| ==>
         && s.done[j] && s.specs[j].Some? && s.specs[j].value.spec == SpecOf(s.drafts[j])
         && s.nodes[j] == Some(Node(NodeOf(s.drafts[j]), KeyOf(s.specs[j].value)))
         && s.ids[j] == Some(KeyOf(s.specs[j].value))
  }

  lemma {:induction false} ChainLands(c: Bulk, i: nat, h: nat, s: State)
    requires i < |c.builders| && h <= |c.builders[i].hooks| && Ready(c, i, s) && HonestFrom(c, i + 1) && Suffix(s)
    ensures var (s', o) := Chain(c, i, h, s);
            && Suffix(s') && (SomeInserted(s.trace) ==> SomeInserted(s'.trace))
            && (o.Saved? && HonestFrom(c, i) ==> Landed(c, i, s'))
    decreases |c.builders| - i, 2 * (|c.builders[i].hooks| - h) + 1, 0
  {
    if h == |c.builders[i].hooks| {
      CoreLands(c, i, s);
    } else {
      var s1 := Log(s, Enter(i, h));
      var (s', outs) := Calls(c, i, h, [], s1);
      var o := c.builders[i].hooks[h].reply(s'.trace, outs);
      ReplyLog(s, Enter(i, h));
      CallsLand(c, i, h, [], s1);
      CallsStop(c, i, h, [], s1);
      ReplyLog(s', Leave(i, h, o));
      assert HonestFrom(c, i) ==> Honest(c.builders[i].hooks[h]);
    }
  }

  lemma {:induction false} CoreLands(c: Bulk, i: nat, s: State)
    requires i < |c.builders| && Ready(c, i, s) && HonestFrom(c, i + 1) && Suffix(s)
    ensures var (s', o) := Core(c, i, s);
            Suffix(s') && (SomeInserted(s.trace) ==> SomeInserted(s'.trace)) && (o.Saved? ==> Landed(c, i, s'))
    decreases |c.builders| - i, 0, 0
  {
    hide Rest, Landed, SomeInserted, Honest, Flaw, Finished, Kept;
    if Flaw(c, i, s).None? {
      var s1 := Prepared(c, i, s);
      var (s2, err) := Rest(c, i, s1);
      RestLands(c, i, s1);
      RestKeeps(c, i, s1);
      if err.None? {
        FinishedLands(c, i, s1, s2);
      }
    }
  }

  /** After the rest has succeeded, the core of builder `i` adds it to those that have landed. */
  lemma FinishedLands(c: Bulk, i: nat, s1: State, s2: State)
    requires i < |c.builders| && Ready(c, i + 1, s2) && Landed(c, i + 1, s2) && Suffix(s2) && SomeInserted(s2.trace)
    requires Kept(i + 1, s1, s2) && s1.specs[i].Some?
    requires s1.specs[i].value.spec == SpecOf(s1.drafts[i]) && s1.nodes[i] == Some(Node(NodeOf(s1.drafts[i]), 0))
    ensures Suffix(Finished(c, i, s2)) && Landed(c, i, Finished(c, i, s2)) && Finished(c, i, s2).trace == s2.trace
  {
    hide LastReply, SomeInserted, SpecOf, NodeOf;
  }

  lemma {:induction false} RestLands(c: Bulk, i: nat, s: State)
    requires i < |c.builders| && Ready(c, i + 1, s) && HonestFrom(c, i + 1) && Suffix(s)
    ensures var (s', err) := Rest(c, i, s);
            && Suffix(s') && (SomeInserted(s.trace) ==> SomeInserted(s'.trace))
            && (err.None? ==> Landed(c, i + 1, s') && SomeInserted(s'.trace))
    decreases |c.builders| - i - 1, 2 * (if i + 1 < |c.builders| then |c.builders[i + 1].hooks| else 0) + 2, 0
  {
    hide Chain, Landed, Honest, SomeInserted, BatchCreate;
    if i < |c.builders| - 1 {
      ChainLands(c, i + 1, 0, s);
      if Rest(c, i, s).1.None? {
        LandedInserted(c, i + 1, Rest(c, i, s).0);
      }
    } else {
      BatchLands(c, s);
    }
  }

  lemma LandedInserted(c: Bulk, i: nat, s: State)
    requires i < |c.builders| && Landed(c, i, s) && Suffix(s)
    ensures SomeInserted(s.trace)
  {
    hide SomeInserted, KeysGiven;
    assert s.done[i];
  }

  lemma BatchLands(c: Bulk, s: State)
    requires Ready(c, |c.builders|, s) && Suffix(s)
    ensures var (s', err) := BatchCreate(c, s);
            && Suffix(s') && (SomeInserted(s.trace) ==> SomeInserted(s'.trace))
            && (err.None? ==> Landed(c, |c.builders|, s') && SomeInserted(s'.trace))
  {
    hide SomeInserted, LastReply;
    ReplyLog(s, Insert(Rows(c, s), c.driver(s.trace, Rows(c, s))));
  }

  lemma {:induction false} CallsLand(c: Bulk, i: nat, h: nat, outs: seq<Outcome>, s: State)
    requires i < |c.builders| && h < |c.builders[i].hooks| && Ready(c, i, s) && HonestFrom(c, i + 1) && Suffix(s)
    requires HonestFrom(c, i) && outs != [] && outs[|outs| - 1].Saved? ==> Landed(c, i, s)
    ensures var (s', outs') := Calls(c, i, h, outs, s);
            && Suffix(s') && (SomeInserted(s.trace) ==> SomeInserted(s'.trace))
            && (HonestFrom(c, i) && outs' != [] && outs'[|outs'| - 1].Saved? ==> Landed(c, i, s'))
    decreases |c.builders| - i, 2 * (|c.builders[i].hooks| - h), c.builders[i].hooks[h].most - |outs|
  {
    var hook := c.builders[i].hooks[h];
    if |outs| < hook.most && hook.again(s.trace, outs) {
      var e := Edited(c, i, h, outs, s);
      var (s', o) := Chain(c, i, h + 1, e);
      ChainLands(c, i, h + 1, e);
      CallsLand(c, i, h, outs + [o], s');
    }
  }

  /**
   After any run in which the hooks from the second builder on are honest, from any state in which the done builders, if
   any, stand behind an insert: the done builders are a suffix of the list, and none is done unless a batch insert has
   succeeded. If the first builder's hooks are honest too, success means that all are done and every node carries the
   key its entry was given.
   */
  lemma ShapeFrom(c: Bulk, s: State)
    requires Ready(c, 0, s) && HonestFrom(c, 1) && Suffix(s)
    ensures var (s', o) := RunFrom(c, s);
            Suffix(s') && (o.Saved? && HonestFrom(c, 0) && c.builders != [] ==> Landed(c, 0, s'))
  {
    hide Chain, Suffix, Landed, Honest;
    if c.builders != [] {
      ChainLands(c, 0, 0, s);
    }
  }

  /** In particular after every run on builders that were not saved before. */
  lemma FailureShape(c: Bulk)
    requires HonestFrom(c, 1)
    ensures Suffix(Run(c).0)
    ensures Run(c).1.Saved? && HonestFrom(c, 0) && c.builders != [] ==> Landed(c, 0, Run(c).0)
  {
    hide Chain, Landed, Honest;
    ShapeFrom(c, Start(c));
  }

  // ---------- Nesting, for all hooks ----------

  /** A hook enters inside the innermost hook that is open. */
  predicate Inside(open: seq<(nat, nat)>, i: nat, h: nat) {
    open == [] || open[|open| - 1].0 < i || (open[|open| - 1].0 == i && open[|open| - 1].1 < h)
  }

  /** The hooks that are open after `trace`, or None where a hook is left that is not the innermost open one. */
  function Open(trace: seq<Event>, open: seq<(nat, nat)>): Option<seq<(nat, nat)>> {
    if trace == [] then Some(open)
    else
      var before := Open(trace[..|trace| - 1], open);
      if before.None? then None
      else
        var st := before.value;
        match trace[|trace| - 1]
        case Enter(i, h) => if Inside(st, i, h) then Some(st + [(i, h)]) else None
        case Leave(i, h, _) => if st != [] && st[|st| - 1] == (i, h) then Some(st[..|st| - 1]) else None
        case Insert(_, _) => Some(st)
  }

  lemma OpenLog(s: State, e: Event, open: seq<(nat, nat)>)
    requires Open(s.trace, []) == Some(open)
    ensures Open(Log(s, e).trace, []) ==
            match e
            case Enter(i, h) => if Inside(open, i, h) then Some(open + [(i, h)]) else None
            case Leave(i, h, _) => if open != [] && open[|open| - 1] == (i, h) then Some(open[..|open| - 1]) else None
            case Insert(_, _) => Some(open)
  {
    assert Log(s, e).trace[..|s.trace|] == s.trace;
  }

  lemma {:induction false} ChainNests(c: Bulk, i: nat, h: nat, s: State, open: seq<(nat, nat)>)
    requires i < |c.builders| && h <= |c.builders[i].hooks| && Ready(c, i, s)
    requires Open(s.trace, []) == Some(open) && Inside(open, i, h)
    ensures Open(Chain(c, i, h, s).0.trace, []) == Some(open)
    decreases |c.builders| - i, 2 * (|c.builders[i].hooks| - h) + 1, 0
  {
    hide Open, Core, Calls;
    if h == |c.builders[i].hooks| {
      CoreNests(c, i, s, open);
    } else {
      var s1 := Log(s, Enter(i, h));
      var (s', outs) := Calls(c, i, h, [], s1);
      OpenLog(s, Enter(i, h), open);
      CallsNest(c, i, h, [], s1, open + [(i, h)]);
      OpenLog(s', Leave(i, h, c.builders[i].hooks[h].reply(s'.trace, outs)), open + [(i, h)]);
      assert (open + [(i, h)])[..|open|] == open;
    }
  }

  lemma {:induction false} CoreNests(c: Bulk, i: nat, s: State, open: seq<(nat, nat)>)
    requires i < |c.builders| && Ready(c, i, s)
    requires Open(s.trace, []) == Some(open) && Inside(open, i, |c.builders[i].hooks|)
    ensures Open(Core(c, i, s).0.trace, []) == Some(open)
    decreases |c.builders| - i, 0, 0
  {
    hide Open, Chain, Flaw, SpecOf, NodeOf, Rows;
    if Flaw(c, i, s).None? {
      var s' := Prepared(c, i, s);
      if i < |c.builders| - 1 {
        ChainNests(c, i + 1, 0, s', open);
      } else {
        OpenLog(s', Insert(Rows(c, s'), c.driver(s'.trace, Rows(c, s'))), open);
      }
    }
  }

  lemma {:induction false} CallsNest(c: Bulk, i: nat, h: nat, outs: seq<Outcome>, s: State, open: seq<(nat, nat)>)
    requires i < |c.builders| && h < |c.builders[i].hooks| && Ready(c, i, s)
    requires Open(s.trace, []) == Some(open) && Inside(open, i, h + 1)
    ensures Open(Calls(c, i, h, outs, s).0.trace, []) == Some(open)
    decreases |c.builders| - i, 2 * (|c.builders[i].hooks| - h), c.builders[i].hooks[h].most - |outs|
  {
    var hook := c.builders[i].hooks[h];
    if |outs| < hook.most && hook.again(s.trace, outs) {
      var e := Edited(c, i, h, outs, s);
      var (s', o) := Chain(c, i, h + 1, e);
      ChainNests(c, i, h + 1, e, open);
      CallsNest(c, i, h, outs + [o], s', open);
    }
  }

  /**
   Whatever the hooks do, their events are well bracketed: each hook is left while it is the innermost open one, and all
   are left.
   */
  lemma WellBracketed(c: Bulk)
    ensures Open(Run(c).0.trace, []) == Some([])
  {
    if c.builders != [] {
      ChainNests(c, 0, 0, Start(c), []);
    }
  }

  // ---------- The exact run, when every hook passes through ----------

  /** Calls the rest exactly once, with the mutation as it is, and answers what it answered. */
  ghost predicate PassesThrough(hook: Hook) {
    && hook.most == 1
    && (forall t :: hook.again(t, []))
    && (forall t, outs, m :: hook.edit(t, outs, m) == m)
    && (forall t, o :: hook.reply(t, [o]) == o)
  }

  ghost predicate AllPassThrough(c: Bulk) {
    forall i, h :: 0 <= i < |c.builders| && 0 <= h < |c.builders[i].hooks| ==> PassesThrough(c.builders[i].hooks[h])
  }

  /** What check() objects to in builder `i` before the run. */
  function Mistake(c: Bulk, i: nat): Option<Column>
    requires i < |c.builders|
  {
    Check(c.schema, c.builders[i].mutation.values)
  }

  ghost predicate AllValid(c: Bulk, i: nat) {
    forall j :: i <= j < |c.builders| ==> Mistake(c, j).None?
  }

  /** The mutations of the builders from `i` on are still what they were before the run. */
  ghost predicate Untouched(c: Bulk, i: nat, s: State) {
    |s.drafts| == |c.builders| && forall j :: i <= j < |c.builders| ==> s.drafts[j] == c.builders[j].mutation
  }

  lemma NoEditYet(c: Bulk, i: nat, s: State)
    requires i < |c.builders| && Untouched(c, i, s)
    ensures s.drafts[i] == c.builders[i].mutation && Flaw(c, i, s) == Mistake(c, i)
  {
    hide Check;
  }

  /** The first builder from `i` on that check() rejects, or the number of builders. */
  function FirstMistake(c: Bulk, i: nat): (stop: nat)
    requires i <= |c.builders|
    ensures i <= stop <= |c.builders|
    ensures stop < |c.builders| ==> Mistake(c, stop).Some?
    decreases |c.builders| - i
  {
    if i == |c.builders| || Mistake(c, i).Some? then i else FirstMistake(c, i + 1)
  }

  lemma {:induction false} NoMistakeBefore(c: Bulk, i: nat)
    requires i <= |c.builders|
    ensures forall j :: i <= j < FirstMistake(c, i) ==> Mistake(c, j).None?
    decreases |c.builders| - i
  {
    hide Mistake;
    if i < |c.builders| && Mistake(c, i).None? {
      NoMistakeBefore(c, i + 1);
    }
  }

  predicate Deeper(c: Bulk, i: nat, stop: nat) {
    i < stop && i + 1 < |c.builders|
  }

  /** Hooks as they open: builder by builder up to `stop`, each in list order. */
  function Openings(c: Bulk, i: nat, h: nat, stop: nat): seq<Event>
    requires i < |c.builders| && h <= |c.builders[i].hooks|
    decreases |c.builders| - i, |c.builders[i].hooks| - h
  {
    if h < |c.builders[i].hooks| then [Enter(i, h)] + Openings(c, i, h + 1, stop)
    else if Deeper(c, i, stop) then Openings(c, i + 1, 0, stop)
    else []
  }

  /** How the batch insert is answered, or why it is not reached. */
  datatype Verdict = Rejected(error: Error) | Accepted(ids: nat -> Option<int>)

  /** What the mutator of builder `j` returns: the error, or the builder's node with its key. */
  function Answer(c: Bulk, v: Verdict, j: nat): Outcome
    requires j < |c.builders|
  {
    match v
    case Rejected(error) => Failed(error)
    case Accepted(ids) => Saved(Some(Node(NodeOf(c.builders[j].mutation), if ids(j).Some? then ids(j).value else 0)))
  }

  function Closings(c: Bulk, i: nat, h: nat, stop: nat, v: Verdict): seq<Event>
    requires i < |c.builders| && h <= |c.builders[i].hooks|
    decreases |c.builders| - i, |c.builders[i].hooks| - h
  {
    if h < |c.builders[i].hooks| then Closings(c, i, h + 1, stop, v) + [Leave(i, h, Answer(c, v, i))]
    else if Deeper(c, i, stop) then Closings(c, i + 1, 0, stop, v)
    else []
  }

  /** The exits are the exact reverse of the entries. */
  lemma {:induction false} ClosingsMirror(c: Bulk, i: nat, h: nat, stop: nat, v: Verdict)
    requires i < |c.builders| && h <= |c.builders[i].hooks|
    ensures var opens, closes := Openings(c, i, h, stop), Closings(c, i, h, stop, v);
            |closes| == |opens| && forall k :: 0 <= k < |opens| ==>
              opens[k].Enter? && opens[k].builder < |c.builders| &&
                  closes[|opens| - 1 - k] == Leave(opens[k].builder, opens[k].hook, Answer(c, v, opens[k].builder))
    decreases |c.builders| - i, |c.builders[i].hooks| - h
  {
    if h < |c.builders[i].hooks| {
      ClosingsMirror(c, i, h + 1, stop, v);
    } else if Deeper(c, i, stop) {
      ClosingsMirror(c, i + 1, 0, stop, v);
    }
  }

  predicate Before(a: Event, b: Event) {
    a.Enter? && b.Enter? && (a.builder < b.builder || (a.builder == b.builder && a.hook < b.hook))
  }

  /** The hooks from (i, h) on. */
  predicate From(e: Event, i: nat, h: nat) {
    e.Enter? && (e.builder > i || (e.builder == i && e.hook >= h))
  }

  ghost predicate AllFrom(es: seq<Event>, i: nat, h: nat) {
    forall k :: 0 <= k < |es| ==> From(es[k], i, h)
  }

  ghost predicate Ordered(es: seq<Event>) {
    forall k, l :: 0 <= k < l < |es| ==> Before(es[k], es[l])
  }

  /** Each builder's hooks open in list order, all of them before those of the next builder. */
  lemma {:induction false} OpeningsInOrder(c: Bulk, i: nat, h: nat, stop: nat)
    requires i < |c.builders| && h <= |c.builders[i].hooks|
    ensures Ordered(Openings(c, i, h, stop)) && AllFrom(Openings(c, i, h, stop), i, h)
    decreases |c.builders| - i, |c.builders[i].hooks| - h
  {
    if h < |c.builders[i].hooks| {
      OpeningsInOrder(c, i, h + 1, stop);
    } else if Deeper(c, i, stop) {
      OpeningsInOrder(c, i + 1, 0, stop);
    }
  }

  /** Exactly the hooks up to builder `stop` open. */
  lemma {:induction false} OpeningsComplete(c: Bulk, i: nat, h: nat, stop: nat, b: nat, g: nat)
    requires i < |c.builders| && h <= |c.builders[i].hooks|
    ensures Enter(b, g) in Openings(c, i, h, stop) <==>
            b < |c.builders| && g < |c.builders[b].hooks| && (if b == i then g >= h else i < b <= stop)
    decreases |c.builders| - i, |c.builders[i].hooks| - h
  {
    if h < |c.builders[i].hooks| {
      OpeningsComplete(c, i, h + 1, stop, b, g);
    } else if Deeper(c, i, stop) {
      OpeningsComplete(c, i + 1, 0, stop, b, g);
    }
  }

  /** The rows the batch insert will get: those handed in before `i`, then createSpec of every builder from `i` on. */
  function AllRows(c: Bulk, i: nat, s: State): (rows: seq<CreateSpec>)
    requires Ready(c, i, s)
  {
    seq(|c.builders|, j requires 0 <= j < |c.builders| =>
      if j < i then s.specs[j].value.spec else SpecOf(c.builders[j].mutation))
  }

  function Middle(c: Bulk, i: nat, h: nat, s: State): seq<Event>
    requires i < |c.builders| && h <= |c.builders[i].hooks| && Ready(c, i, s)
  {
    if FirstMistake(c, i) < |c.builders| then []
    else [Insert(AllRows(c, i, s), c.driver(s.trace + Openings(c, i, h, FirstMistake(c, i)), AllRows(c, i, s)))]
  }

  function VerdictOf(c: Bulk, i: nat, h: nat, s: State): Verdict
    requires i < |c.builders| && h <= |c.builders[i].hooks| && Ready(c, i, s)
  {
    if FirstMistake(c, i) < |c.builders| then Rejected(Invalid(Mistake(c, FirstMistake(c, i)).value))
    else
      match Middle(c, i, h, s)[0].reply
      case Refused(error) => Rejected(error)
      case Inserted(ids) => Accepted(ids)
  }

  ghost predicate PassedThrough(c: Bulk, i: nat, h: nat, s: State, s': State, o: Outcome)
    requires i < |c.builders| && h <= |c.builders[i].hooks| && Ready(c, i, s)
  {
    var v := VerdictOf(c, i, h, s);
    && Ready(c, i, s') && o == Answer(c, v, i)
    && s'.trace ==
        s.trace + Openings(c, i, h, FirstMistake(c, i)) + Middle(c, i, h, s) + Closings(c, i, h, FirstMistake(c, i), v)
    && (v.Rejected? ==> s'.done == s.done)
    && (v.Accepted? ==> forall j :: 0 <= j < i ==>
        s'.nodes[j] == s.nodes[j] && s'.specs[j] == Keyed(s.specs[j], v.ids(j)))
  }

  lemma HookOnce(c: Bulk, i: nat, h: nat, s: State)
    requires i < |c.builders| && h < |c.builders[i].hooks| && Ready(c, i, s) && AllPassThrough(c)
    ensures var (s', o) := Chain(c, i, h + 1, Log(s, Enter(i, h)));
            Chain(c, i, h, s) == (Log(s', Leave(i, h, o)), o)
  {
    hide Core;
    var hook := c.builders[i].hooks[h];
    assert PassesThrough(hook);
    var s1 := Log(s, Enter(i, h));
    assert Edited(c, i, h, [], s1) == s1;
    var (s', o) := Chain(c, i, h + 1, s1);
    assert hook.again(s1.trace, []);
    assert Calls(c, i, h, [o], s') == (s', [o]);
    assert [] + [o] == [o];
    assert Calls(c, i, h, [], s1) == Calls(c, i, h, [o], s');
    assert hook.reply(s'.trace, [o]) == o;
  }

  lemma {:induction false} ChainPasses(c: Bulk, i: nat, h: nat, s: State)
    requires i < |c.builders| && h <= |c.builders[i].hooks| && Ready(c, i, s) && AllPassThrough(c) && Untouched(c, i, s)
    ensures var (s', o) := Chain(c, i, h, s); PassedThrough(c, i, h, s, s', o)
    decreases |c.builders| - i, |c.builders[i].hooks| - h, 1
  {
    hide Core, Calls, Chain, FirstMistake;
    if h < |c.builders[i].hooks| {
      var s1 := Log(s, Enter(i, h));
      HookOnce(c, i, h, s);
      ChainPasses(c, i, h + 1, s1);
      var stop := FirstMistake(c, i);
      assert s.trace + Openings(c, i, h, stop) == s1.trace + Openings(c, i, h + 1, stop);
      assert AllRows(c, i, s1) == AllRows(c, i, s);
    } else {
      CorePasses(c, i, s);
      ChainIsCore(c, i, s);
    }
  }

  lemma ChainIsCore(c: Bulk, i: nat, s: State)
    requires i < |c.builders| && Ready(c, i, s)
    ensures Chain(c, i, |c.builders[i].hooks|, s) == Core(c, i, s)
  {
  }

  lemma RowsNext(c: Bulk, i: nat, s: State)
    requires i < |c.builders| && Ready(c, i, s) && Untouched(c, i, s)
    ensures var s1 := Prepared(c, i, s); AllRows(c, i + 1, s1) == AllRows(c, i, s) && Untouched(c, i + 1, s1)
  {
    hide SpecOf, NodeOf;
    assert s.drafts[i] == c.builders[i].mutation;
  }

  lemma {:induction false} CorePasses(c: Bulk, i: nat, s: State)
    requires i < |c.builders| && Ready(c, i, s) && AllPassThrough(c) && Untouched(c, i, s)
    ensures var (s', o) := Core(c, i, s); PassedThrough(c, i, |c.builders[i].hooks|, s, s', o)
    decreases |c.builders| - i, 0, 0
  {
    hide Chain, SpecOf, NodeOf, Mistake, Flaw, Openings, Closings, BatchCreate, PassedThrough, Untouched, Core;
    NoEditYet(c, i, s);
    if Mistake(c, i).Some? {
      CoreRejects(c, i, s);
    } else {
      var s1 := Prepared(c, i, s);
      RowsNext(c, i, s);
      if i < |c.builders| - 1 {
        ChainPasses(c, i + 1, 0, s1);
        CoreGoesOn(c, i, s);
      } else {
        LastCore(c, s);
      }
    }
  }

  lemma CoreRejects(c: Bulk, i: nat, s: State)
    requires i < |c.builders| && Ready(c, i, s) && Flaw(c, i, s) == Mistake(c, i) && Mistake(c, i).Some?
    ensures var (s', o) := Core(c, i, s); PassedThrough(c, i, |c.builders[i].hooks|, s, s', o)
  {
    hide Chain, SpecOf, NodeOf, Mistake, Flaw, BatchCreate;
    NothingLeft(c, i, i);
  }

  lemma CoreGoesOn(c: Bulk, i: nat, s: State)
    requires i < |c.builders| - 1 && Ready(c, i, s) && Flaw(c, i, s).None? && Mistake(c, i).None?
    requires var s1 := Prepared(c, i, s);
             var (s', o) := Chain(c, i + 1, 0, s1);
             PassedThrough(c, i + 1, 0, s1, s', o) && AllRows(c, i + 1, s1) == AllRows(c, i, s)
    requires s.drafts[i] == c.builders[i].mutation
    ensures var (s', o) := Core(c, i, s); PassedThrough(c, i, |c.builders[i].hooks|, s, s', o)
  {
    hide Chain, SpecOf, NodeOf, Mistake, Flaw, Openings, Closings, BatchCreate, AllRows;
    NothingLeft(c, i, FirstMistake(c, i));
  }

  lemma LastCore(c: Bulk, s: State)
    requires c.builders != []
    requires var i := |c.builders| - 1;
             Ready(c, i, s) && Untouched(c, i, s) && Flaw(c, i, s).None? && Mistake(c, i).None?
    ensures var i := |c.builders| - 1;
            var (s', o) := Core(c, i, s);
            PassedThrough(c, i, |c.builders[i].hooks|, s, s', o)
  {
    hide SpecOf, NodeOf, Mistake, Flaw, Openings, Closings, BatchCreate, Chain, AllRows;
    var i := |c.builders| - 1;
    assert s.drafts[i] == c.builders[i].mutation;
    NothingLeft(c, i, FirstMistake(c, i));
    LastPasses(c, s, Prepared(c, i, s));
    assert FirstMistake(c, i) == FirstMistake(c, i + 1) == |c.builders|;
    assert s.trace + [] == s.trace;
  }

  lemma NothingLeft(c: Bulk, i: nat, stop: nat)
    requires i < |c.builders|
    ensures var h := |c.builders[i].hooks|;
            && Openings(c, i, h, stop) == (if Deeper(c, i, stop) then Openings(c, i + 1, 0, stop) else [])
            && forall v ::
                Closings(c, i, h, stop, v) == if Deeper(c, i, stop) then Closings(c, i + 1, 0, stop, v) else []
  {
  }

  lemma LastPasses(c: Bulk, s: State, s1: State)
    requires c.builders != []
    requires var i := |c.builders| - 1; Ready(c, i, s) && Untouched(c, i, s) && s1 == Prepared(c, i, s)
    ensures var i := |c.builders| - 1;
            var (s', err) := BatchCreate(c, s1);
            var rows := AllRows(c, i, s);
            && s'.trace == s.trace + [Insert(rows, c.driver(s.trace, rows))] && s'.done == s.done &&
                s'.nodes == s1.nodes
            && match c.driver(s.trace, rows)
               case Refused(error) => err == Some(error)
               case Inserted(ids) => err == None && s'.specs == KeyedAll(s1.specs, ids)
  {
    hide SpecOf, NodeOf;
    assert s.drafts[|c.builders| - 1] == c.builders[|c.builders| - 1].mutation;
    assert Rows(c, s1) == AllRows(c, |c.builders| - 1, s);
  }

  /**
   With pass-through hooks on a non-empty list the batch insert runs exactly once if every builder is valid and
   otherwise never; it gets createSpec of every builder in order, between all the entries and all the exits; the first
   mistake is the error; and all builders are done, or none is.
   */
  lemma PassThroughRun(c: Bulk)
    requires AllPassThrough(c) && c.builders != []
    ensures var (s, o) := Run(c);
            var stop := FirstMistake(c, 0);
            var rows := seq(|c.builders|, j requires 0 <= j < |c.builders| => SpecOf(c.builders[j].mutation));
            && (stop == |c.builders| <==> AllValid(c, 0))
            && s.trace == Openings(c, 0, 0, stop)
                          + (if AllValid(c, 0) then [Insert(rows, c.driver(Openings(c, 0, 0, stop), rows))] else [])
                          + Closings(c, 0, 0, stop, VerdictOf(c, 0, 0, Start(c)))
            && o == Answer(c, VerdictOf(c, 0, 0, Start(c)), 0)
            && (!AllValid(c, 0) ==> o == Failed(Invalid(Mistake(c, stop).value)))
            && (o.Saved? ==> Landed(c, 0, s)) && (o.Failed? ==> forall j :: 0 <= j < |s.done| ==> !s.done[j])
  {
    hide Chain, Landed, Openings, Closings, Mistake, FirstMistake, SpecOf;
    var s0 := Start(c);
    ChainPasses(c, 0, 0, s0);
    NoMistakeBefore(c, 0);
    assert s0.trace + Openings(c, 0, 0, FirstMistake(c, 0)) == Openings(c, 0, 0, FirstMistake(c, 0));
    assert AllRows(c, 0, s0) == seq(|c.builders|, j requires 0 <= j < |c.builders| => SpecOf(c.builders[j].mutation));
    forall i, h | 0 <= i < |c.builders| && 0 <= h < |c.builders[i].hooks|
      ensures Honest(c.builders[i].hooks[h])
    {
      PassingIsHonest(c.builders[i].hooks[h]);
    }
    FailureShape(c);
  }

  lemma PassingIsHonest(hook: Hook)
    requires PassesThrough(hook)
    ensures Honest(hook)
  {
    forall t, outs: seq<Outcome> | Stops(hook, t, outs) && hook.reply(t, outs).Saved?
      ensures outs != [] && outs[|outs| - 1].Saved?
    {
      assert outs != [] by { assert hook.again(t, []); }
      assert outs == [outs[0]];
    }
  }

  /**
   Honesty is needed: if the hook of the second builder reports success without calling the rest, the first builder is
   marked done although the second is not and nothing was ever inserted.
   */
  lemma SilentSuccess(c: Bulk)
    requires |c.builders| == 2 && c.builders[0].hooks == [] && |c.builders[1].hooks| == 1 && Mistake(c, 0).None?
    requires var hook := c.builders[1].hooks[0]; hook.most == 0 && forall t :: hook.reply(t, []) == Saved(None)
    ensures var (s, o) := Run(c); o.Saved? && s.done == [true, false] && Inserts(s.trace) == 0 && !Suffix(s)
  {
    hide Mistake, SpecOf, NodeOf, SomeInserted, Flaw;
    var s0 := Start(c);
    NoEditYet(c, 0, s0);
    var s1 := Prepared(c, 0, s0);
    var s2 := Log(s1, Enter(1, 0));
    assert Calls(c, 1, 0, [], s2) == (s2, []);
    var s3 := Log(s2, Leave(1, 0, Saved(None)));
    assert Chain(c, 1, 0, s1) == (s3, Saved(None));
    hide Chain;
    assert Core(c, 0, s0) == (Finished(c, 0, s3), Saved(Finished(c, 0, s3).nodes[0]));
    ChainIsCore(c, 0, s0);
    assert Run(c) == Core(c, 0, s0);
    assert s3.done == [false, false];
    InsertsLog(s1, Enter(1, 0));
    InsertsLog(s2, Leave(1, 0, Saved(None)));
    var s := Run(c).0;
    assert s.trace == s3.trace;
    assert s.done == [true, false];
    assert s.done[0] && !s.done[1];
    assert !Suffix(s);
  }
}
