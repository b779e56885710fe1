/**
 What reaches the database, and bulk creation against a builder's own Save: whatever hooks edit, only checked mutations
 are inserted; an invalid builder that is not repaired blocks the batch insert; a bulk of one runs as the single Save
 does; and a bulk accepts exactly the lists whose builders would each save on their own.
 */
module SaveLaws {
  import opened Prelude
  import opened AccountRows
  import opened AccountCreation
  import opened Mutators
  import opened MutatorLaws
  import opened HookLaws

  // ---------- Whatever hooks edit, only checked mutations are inserted ----------

  /** createSpec of a mutation that check() accepted. */
  ghost predicate Cleared(c: Bulk, spec: CreateSpec) {
    exists m: Mutation :: Check(c.schema, m.values).None? && spec == SpecOf(m)
  }

  ghost predicate SpecsCleared(c: Bulk, s: State) {
    forall j :: 0 <= j < |s.specs| && s.specs[j].Some? ==> Cleared(c, s.specs[j].value.spec)
  }

  ghost predicate InsertsCleared(c: Bulk, t: seq<Event>) {
    forall k, r :: 0 <= k < |t| && t[k].Insert? && 0 <= r < |t[k].rows| ==> Cleared(c, t[k].rows[r])
  }

  lemma LogCleared(c: Bulk, s: State, e: Event)
    requires InsertsCleared(c, s.trace)
    requires e.Insert? ==> forall r :: 0 <= r < |e.rows| ==> Cleared(c, e.rows[r])
    ensures InsertsCleared(c, Log(s, e).trace)
  {
    hide Cleared;
  }

  lemma {:induction false} ChainClears(c: Bulk, i: nat, h: nat, s: State)
    requires i < |c.builders| && h <= |c.builders[i].hooks| && Ready(c, i, s)
    requires SpecsCleared(c, s) && InsertsCleared(c, s.trace)
    ensures var s' := Chain(c, i, h, s).0; SpecsCleared(c, s') && InsertsCleared(c, s'.trace)
    decreases |c.builders| - i, 2 * (|c.builders[i].hooks| - h) + 1, 0
  {
    hide Core, Calls, InsertsCleared, Cleared;
    if h == |c.builders[i].hooks| {
      CoreClears(c, i, s);
    } else {
      var s1 := Log(s, Enter(i, h));
      var (s', outs) := Calls(c, i, h, [], s1);
      LogCleared(c, s, Enter(i, h));
      CallsClear(c, i, h, [], s1);
      LogCleared(c, s', Leave(i, h, c.builders[i].hooks[h].reply(s'.trace, outs)));
    }
  }

  lemma PreparedCleared(c: Bulk, i: nat, s: State)
    requires i < |c.builders| && Ready(c, i, s) && Flaw(c, i, s).None? && SpecsCleared(c, s)
    ensures SpecsCleared(c, Prepared(c, i, s))
  {
    hide SpecOf, NodeOf, Check;
    assert Cleared(c, SpecOf(s.drafts[i]));
  }

  lemma {:induction false} CoreClears(c: Bulk, i: nat, s: State)
    requires i < |c.builders| && Ready(c, i, s) && SpecsCleared(c, s) && InsertsCleared(c, s.trace)
    ensures var s' := Core(c, i, s).0; SpecsCleared(c, s') && InsertsCleared(c, s'.trace)
    decreases |c.builders| - i, 0, 0
  {
    hide Chain, InsertsCleared, Cleared, Flaw, SpecOf, NodeOf, BatchCreate;
    if Flaw(c, i, s).None? {
      var s1 := Prepared(c, i, s);
      PreparedCleared(c, i, s);
      if i < |c.builders| - 1 {
        ChainClears(c, i + 1, 0, s1);
      } else {
        BatchClears(c, s1);
      }
    }
  }

  lemma BatchClears(c: Bulk, s: State)
    requires Ready(c, |c.builders|, s) && SpecsCleared(c, s) && InsertsCleared(c, s.trace)
    ensures var s' := BatchCreate(c, s).0; SpecsCleared(c, s') && InsertsCleared(c, s'.trace)
  {
    hide Cleared, InsertsCleared;
    LogCleared(c, s, Insert(Rows(c, s), c.driver(s.trace, Rows(c, s))));
  }

  lemma {:induction false} CallsClear(c: Bulk, i: nat, h: nat, outs: seq<Outcome>, s: State)
    requires i < |c.builders| && h < |c.builders[i].hooks| && Ready(c, i, s)
    requires SpecsCleared(c, s) && InsertsCleared(c, s.trace)
    ensures var s' := Calls(c, i, h, outs, s).0; SpecsCleared(c, s') && InsertsCleared(c, s'.trace)
    decreases |c.builders| - i, 2 * (|c.builders[i].hooks| - h), c.builders[i].hooks[h].most - |outs|
  {
    hide Chain, InsertsCleared, Cleared, Edited;
    var hook := c.builders[i].hooks[h];
    if |outs| < hook.most && hook.again(s.trace, outs) {
      var e := Edited(c, i, h, outs, s);
      var (s', o) := Chain(c, i, h + 1, e);
      ChainClears(c, i, h + 1, e);
      CallsClear(c, i, h, outs + [o], s');
    }
  }

  /**
   Whatever hooks call, edit and answer, and however often they retry: every row of every insert is createSpec of a
   mutation that check() had accepted as it then was.
   */
  lemma InsertsOnlyChecked(c: Bulk, s: State)
    requires Ready(c, 0, s) && SpecsCleared(c, s) && InsertsCleared(c, s.trace)
    ensures InsertsCleared(c, RunFrom(c, s).0.trace)
  {
    hide Chain, Cleared;
    if c.builders != [] {
      ChainClears(c, 0, 0, s);
    }
  }

  // ---------- What the inserted rows hold ----------

  predicate Carries(spec: CreateSpec, c: Column) {
    exists k :: 0 <= k < |spec.fields| && spec.fields[k].0 == c
  }

  /** Every text of the column satisfies its validator. */
  predicate TextsSatisfy(spec: CreateSpec, c: Column, valid: string -> bool) {
    forall k :: 0 <= k < |spec.fields| && spec.fields[k].0 == c && spec.fields[k].1.Text? ==>
      valid(spec.fields[k].1.text)
  }

  /** The row holds all that an account must have. */
  predicate RowComplete(schema: Schema, spec: CreateSpec) {
    && Carries(spec, CreatedAt) && Carries(spec, UpdatedAt) && Carries(spec, Name) && Carries(spec, Platform)
    && Carries(spec, Type) && Carries(spec, Credentials) && Carries(spec, Extra) && Carries(spec, Concurrency)
    && Carries(spec, Priority) && Carries(spec, RateMultiplier) && Carries(spec, Status)
    && Carries(spec, AutoPauseOnExpired) && Carries(spec, Schedulable) && Carries(spec, QuotaDimension)
    && TextsSatisfy(spec, Name, schema.validName) && TextsSatisfy(spec, Platform, schema.validPlatform)
    && TextsSatisfy(spec, Type, schema.validType) && TextsSatisfy(spec, Status, schema.validStatus)
    && TextsSatisfy(spec, SessionWindowStatus, schema.validSessionWindowStatus)
    && TextsSatisfy(spec, QuotaDimension, v => v == "global" || v == "spark")
  }

  ghost predicate RowsComplete(schema: Schema, t: seq<Event>) {
    forall k, r :: 0 <= k < |t| && t[k].Insert? && 0 <= r < |t[k].rows| ==> RowComplete(schema, t[k].rows[r])
  }

  predicate Copied(f: (Column, Value), values: map<Column, Value>) {
    f.0 in values && f.1 == values[f.0]
  }

  lemma {:induction false} FieldCopied(values: map<Column, Value>, columns: seq<Column>, k: nat)
    requires k < |SpecFields(values, columns)|
    ensures Copied(SpecFields(values, columns)[k], values)
  {
    if columns != [] {
      var last := |columns| - 1;
      if k < |SpecFields(values, columns[..last])| {
        FieldCopied(values, columns[..last], k);
      }
    }
  }

  lemma {:induction false} FieldPlaced(values: map<Column, Value>, columns: seq<Column>, c: Column) returns (k: nat)
    requires c in columns && c in values
    ensures k < |SpecFields(values, columns)| && SpecFields(values, columns)[k].0 == c
  {
    var last := |columns| - 1;
    assert columns == columns[..last] + [columns[last]];
    if c in columns[..last] {
      k := FieldPlaced(values, columns[..last], c);
    } else {
      k := |SpecFields(values, columns[..last])|;
    }
  }

  lemma SpecCarries(m: Mutation, c: Column)
    requires Settable(c) && c in m.values
    ensures Carries(SpecOf(m), c)
  {
    AllSettable(c);
    hide SpecColumns;
    var k := FieldPlaced(m.values, SpecColumns(), c);
    assert SpecOf(m).fields[k].0 == c;
  }

  lemma SpecSatisfies(m: Mutation, c: Column, valid: string -> bool)
    requires Satisfies(valid, m.values, c)
    ensures TextsSatisfy(SpecOf(m), c, valid)
  {
    hide SpecColumns;
    var fs := SpecOf(m).fields;
    forall k | 0 <= k < |fs| && fs[k].0 == c && fs[k].1.Text?
      ensures valid(fs[k].1.text)
    {
      FieldCopied(m.values, SpecColumns(), k);
    }
  }

  lemma DemandsCarried(schema: Schema, m: Mutation)
    requires Demands(schema, m.values)
    ensures RowComplete(schema, SpecOf(m))
  {
    hide SpecOf, Carries, TextsSatisfy, Satisfies;
    forall c | Settable(c) && c in m.values
      ensures Carries(SpecOf(m), c)
    {
      SpecCarries(m, c);
    }
    forall c, valid | Satisfies(valid, m.values, c)
      ensures TextsSatisfy(SpecOf(m), c, valid)
    {
      SpecSatisfies(m, c, valid);
    }
  }

  /** So every row that any run inserts is complete, whatever hooks do. */
  lemma InsertsComplete(c: Bulk, s: State)
    requires Ready(c, 0, s) && SpecsCleared(c, s) && InsertsCleared(c, s.trace)
    ensures RowsComplete(c.schema, RunFrom(c, s).0.trace)
  {
    hide RunFrom, Check, Demands, RowComplete, SpecOf;
    InsertsOnlyChecked(c, s);
    var t := RunFrom(c, s).0.trace;
    forall k, r | 0 <= k < |t| && t[k].Insert? && 0 <= r < |t[k].rows|
      ensures RowComplete(c.schema, t[k].rows[r])
    {
      assert Cleared(c, t[k].rows[r]);
      var m: Mutation :| Check(c.schema, m.values).None? && t[k].rows[r] == SpecOf(m);
      CheckDemands(c.schema, m.values);
      DemandsCarried(c.schema, m);
    }
  }

  // ---------- An invalid builder blocks everything ----------

  /** The builder's own hooks never turn an invalid mutation into a valid one. */
  ghost predicate Unrepaired(c: Bulk, bad: nat)
    requires bad < |c.builders|
  {
    forall h, t, outs, m: Mutation :: 0 <= h < |c.builders[bad].hooks| && Check(c.schema, m.values).Some? ==>
      Check(c.schema, c.builders[bad].hooks[h].edit(t, outs, m).values).Some?
  }

  /** Builder `bad` is invalid as it is now, and stays so. */
  ghost predicate Stuck(c: Bulk, bad: nat, s: State)
    requires bad < |c.builders|
  {
    Unrepaired(c, bad) && |s.drafts| == |c.builders| && Flaw(c, bad, s).Some?
  }

  lemma EditedStuck(c: Bulk, i: nat, h: nat, outs: seq<Outcome>, s: State, bad: nat)
    requires i < |c.builders| && h < |c.builders[i].hooks| && Ready(c, i, s) && bad < |c.builders| && Stuck(c, bad, s)
    ensures Stuck(c, bad, Edited(c, i, h, outs, s))
  {
    hide Check;
  }

  lemma KeptStuck(c: Bulk, i: nat, s: State, s': State)
    requires i < |c.builders| && Stuck(c, i, s) && s'.drafts == s.drafts
    ensures Stuck(c, i, s')
  {
    hide Check;
  }

  lemma {:induction false} ChainBlocked(c: Bulk, i: nat, h: nat, s: State, bad: nat)
    requires i <= bad < |c.builders| && h <= |c.builders[i].hooks| && Ready(c, i, s) && Stuck(c, bad, s)
    ensures var (s', o) := Chain(c, i, h, s);
            && Inserts(s'.trace) == Inserts(s.trace) && Stuck(c, bad, s')
            && (HonestFrom(c, 0) ==> o.Failed? && s'.done == s.done)
    decreases |c.builders| - i, 2 * (|c.builders[i].hooks| - h) + 1, 0
  {
    hide Core, Calls, Inserts, Stuck, Honest;
    if h == |c.builders[i].hooks| {
      CoreBlocked(c, i, s, bad);
    } else {
      var s1 := Log(s, Enter(i, h));
      var (s', outs) := Calls(c, i, h, [], s1);
      var hook := c.builders[i].hooks[h];
      InsertsLog(s, Enter(i, h));
      KeptStuck(c, bad, s, s1);
      CallsBlocked(c, i, h, [], s1, bad);
      CallsStop(c, i, h, [], s1);
      InsertsLog(s', Leave(i, h, hook.reply(s'.trace, outs)));
      KeptStuck(c, bad, s', Chain(c, i, h, s).0);
      if HonestFrom(c, 0) {
        HonestFails(hook, s'.trace, outs);
      }
    }
  }

  lemma HonestFails(hook: Hook, t: seq<Event>, outs: seq<Outcome>)
    requires Honest(hook) && Stops(hook, t, outs) && forall k :: 0 <= k < |outs| ==> outs[k].Failed?
    ensures hook.reply(t, outs).Failed?
  {
  }

  lemma {:induction false} CoreBlocked(c: Bulk, i: nat, s: State, bad: nat)
    requires i <= bad < |c.builders| && Ready(c, i, s) && Stuck(c, bad, s)
    ensures var (s', o) := Core(c, i, s);
            && Inserts(s'.trace) == Inserts(s.trace) && Stuck(c, bad, s')
            && (HonestFrom(c, 0) ==> o.Failed? && s'.done == s.done)
    decreases |c.builders| - i, 0, 0
  {
    hide Chain, Inserts, Check, Honest, Unrepaired;
    if Flaw(c, i, s).None? {
      var s1 := Prepared(c, i, s);
      KeptStuck(c, bad, s, s1);
      ChainBlocked(c, i + 1, 0, s1, bad);
      var s2 := Rest(c, i, s1).0;
      KeptStuck(c, bad, s2, Finished(c, i, s2));
    }
  }

  lemma {:induction false} CallsBlocked(c: Bulk, i: nat, h: nat, outs: seq<Outcome>, s: State, bad: nat)
    requires i <= bad < |c.builders| && h < |c.builders[i].hooks| && Ready(c, i, s) && Stuck(c, bad, s)
    requires HonestFrom(c, 0) ==> forall k :: 0 <= k < |outs| ==> outs[k].Failed?
    ensures var (s', outs') := Calls(c, i, h, outs, s);
            && Inserts(s'.trace) == Inserts(s.trace) && Stuck(c, bad, s')
            && (HonestFrom(c, 0) ==> s'.done == s.done && forall k :: 0 <= k < |outs'| ==> outs'[k].Failed?)
    decreases |c.builders| - i, 2 * (|c.builders[i].hooks| - h), c.builders[i].hooks[h].most - |outs|
  {
    hide Chain, Inserts, Stuck, Honest, Edited;
    var hook := c.builders[i].hooks[h];
    if |outs| < hook.most && hook.again(s.trace, outs) {
      var e := Edited(c, i, h, outs, s);
      EditedStuck(c, i, h, outs, s, bad);
      var (s', o) := Chain(c, i, h + 1, e);
      ChainBlocked(c, i, h + 1, e, bad);
      CallsBlocked(c, i, h, outs + [o], s', bad);
    }
  }

  /**
   One invalid builder anywhere in the list that its own hooks do not repair, and no row is inserted, whatever hooks
   call, edit and answer; honest hooks then report a failure.
   */
  lemma InvalidNeverInserts(c: Bulk, bad: nat)
    requires bad < |c.builders| && Mistake(c, bad).Some? && Unrepaired(c, bad)
    ensures Inserts(Run(c).0.trace) == 0
    ensures HonestFrom(c, 0) ==> Run(c).1.Failed? && forall j :: 0 <= j < |Run(c).0.done| ==> !Run(c).0.done[j]
  {
    hide Chain, Check, Honest;
    NoEditYet(c, bad, Start(c));
    ChainBlocked(c, 0, 0, Start(c), bad);
  }

  // ---------- The single Save ----------

  /** The state of one builder's own Save. */
  datatype Own = Own(draft: Mutation, done: bool, id: Option<int>, trace: seq<Event>)

  predicate Single(c: Bulk) {
    |c.builders| == 1
  }

  /** sqlSave: check, createSpec, the insert of one row; the key is read off the answer. */
  function SqlSave(c: Bulk, s: Own): (Own, Outcome)
    requires Single(c)
  {
    var m := s.draft;
    var flaw := Check(c.schema, m.values);
    if flaw.Some? then (s, Failed(Invalid(flaw.value)))
    else
      var reply := c.driver(s.trace, [SpecOf(m)]);
      var s := s.(trace := s.trace + [Insert([SpecOf(m)], reply)]);
      match reply
      case Refused(error) => (s, Failed(error))
      case Inserted(ids) =>
        var id := if ids(0).Some? then ids(0).value else 0;
        (s.(done := true, id := Some(id)), Saved(Some(Node(NodeOf(m), id))))
  }

  /** The hooks from the h-th on around sqlSave. */
  function Mutate(c: Bulk, h: nat, s: Own): (Own, Outcome)
    requires Single(c) && h <= |c.builders[0].hooks|
    decreases 2 * (|c.builders[0].hooks| - h) + 1, 0
  {
    if h == |c.builders[0].hooks| then SqlSave(c, s)
    else
      var (s', outs) := OwnCalls(c, h, [], s.(trace := s.trace + [Enter(0, h)]));
      var o := c.builders[0].hooks[h].reply(s'.trace, outs);
      (s'.(trace := s'.trace + [Leave(0, h, o)]), o)
  }

  function OwnCalls(c: Bulk, h: nat, outs: seq<Outcome>, s: Own): (Own, seq<Outcome>)
    requires Single(c) && h < |c.builders[0].hooks|
    decreases 2 * (|c.builders[0].hooks| - h), c.builders[0].hooks[h].most - |outs|
  {
    var hook := c.builders[0].hooks[h];
    if |outs| >= hook.most || !hook.again(s.trace, outs) then (s, outs)
    else
      var (s', o) := Mutate(c, h + 1, s.(draft := hook.edit(s.trace, outs, s.draft)));
      OwnCalls(c, h, outs + [o], s')
  }

  /** The builder after its defaults, not saved before. */
  function OwnStart(m: Mutation): Own {
    Own(m, false, None, [])
  }

  const UNEXPECTED_TYPE := Raised("unexpected node type")
  const UNINITIALIZED := Raised("uninitialized default")

  /** withHooks: whatever the hooks return must be an account. */
  function WithHooks(c: Bulk, s: Own): (Own, Outcome)
    requires Single(c)
  {
    if c.builders[0].hooks == [] then SqlSave(c, s)
    else
      var (s', o) := Mutate(c, 0, s);
      (s', if o == Saved(None) then Failed(UNEXPECTED_TYPE) else o)
  }

  /** The one builder after its defaults, as a bulk. */
  function BulkOfOne(schema: Schema, m: Mutation, hooks: seq<Hook>,
          driver: (seq<Event>, seq<CreateSpec>) -> Reply): Bulk {
    Bulk(schema, [Builder(m.(values := WithDefaults(schema, m.values).0), hooks)], driver)
  }

  /** A builder's own Save, which does report what defaults() returns. */
  function OwnSave(schema: Schema, m: Mutation, hooks: seq<Hook>,
          driver: (seq<Event>, seq<CreateSpec>) -> Reply): (Own, Outcome) {
    var c := BulkOfOne(schema, m, hooks, driver);
    if !WithDefaults(schema, m.values).1 then (OwnStart(c.builders[0].mutation), Failed(UNINITIALIZED))
    else WithHooks(c, OwnStart(c.builders[0].mutation))
  }

  ghost predicate Same(s: State, t: Own) {
    && |s.drafts| == |s.done| == |s.ids| == 1
    && s.drafts[0] == t.draft && s.done[0] == t.done && s.ids[0] == t.id && s.trace == t.trace
  }

  lemma SameCore(c: Bulk, s: State, t: Own)
    requires Single(c) && Ready(c, 0, s) && Same(s, t)
    ensures var (s', o) := Core(c, 0, s); var (t', p) := SqlSave(c, t); Same(s', t') && o == p
  {
    hide Check, SpecOf, NodeOf;
    if Flaw(c, 0, s).None? {
      var s1 := Prepared(c, 0, s);
      assert Rows(c, s1) == [SpecOf(t.draft)];
    }
  }

  lemma {:induction false} SameChain(c: Bulk, h: nat, s: State, t: Own)
    requires Single(c) && h <= |c.builders[0].hooks| && Ready(c, 0, s) && Same(s, t)
    ensures var (s', o) := Chain(c, 0, h, s); var (t', p) := Mutate(c, h, t); Same(s', t') && o == p
    decreases 2 * (|c.builders[0].hooks| - h) + 1, 0
  {
    hide Core, SqlSave, Calls, OwnCalls;
    if h == |c.builders[0].hooks| {
      SameCore(c, s, t);
    } else {
      SameCalls(c, h, [], Log(s, Enter(0, h)), t.(trace := t.trace + [Enter(0, h)]));
    }
  }

  lemma {:induction false} SameCalls(c: Bulk, h: nat, outs: seq<Outcome>, s: State, t: Own)
    requires Single(c) && h < |c.builders[0].hooks| && Ready(c, 0, s) && Same(s, t)
    ensures var (s', os) := Calls(c, 0, h, outs, s); var (t', ps) := OwnCalls(c, h, outs, t); Same(s', t') && os == ps
    decreases 2 * (|c.builders[0].hooks| - h), c.builders[0].hooks[h].most - |outs|
  {
    hide Chain, Mutate;
    var hook := c.builders[0].hooks[h];
    if |outs| < hook.most && hook.again(s.trace, outs) {
      var e, d := Edited(c, 0, h, outs, s), t.(draft := hook.edit(t.trace, outs, t.draft));
      SameChain(c, h + 1, e, d);
      var (s', o) := Chain(c, 0, h + 1, e);
      var (t', p) := Mutate(c, h + 1, d);
      SameCalls(c, h, outs + [o], s', t');
    }
  }

  /** What a bulk of one gives its caller: the error, or its node whatever the hooks returned. */
  function BulkReturns(s: State, o: Outcome): Outcome
    requires |s.nodes| == 1
  {
    if o.Failed? then o else Saved(s.nodes[0])
  }

  lemma SameHooks(c: Bulk)
    requires Single(c)
    ensures var (s, o) := Run(c);
            var (t, p) := WithHooks(c, OwnStart(c.builders[0].mutation));
            && |s.nodes| == 1 && Same(s, t)
            && p == if o == Saved(None) then Failed(UNEXPECTED_TYPE) else o
  {
    hide Chain, Mutate;
    SameChain(c, 0, Start(c), OwnStart(c.builders[0].mutation));
    if c.builders[0].hooks == [] {
      hide SqlSave;
      NoHooks(c, OwnStart(c.builders[0].mutation));
    }
  }

  lemma NoHooks(c: Bulk, t: Own)
    requires Single(c) && c.builders[0].hooks == []
    ensures Mutate(c, 0, t) == SqlSave(c, t) && SqlSave(c, t).1 != Saved(None)
  {
  }

  /**
   When defaults() succeeds, a bulk of one leaves, event by event, what the builder's own Save leaves, under any hooks.
   The two agree on success exactly if the outermost answer is a failure or carries an account, and they return the
   same exactly if it is a failure or carries the builder's own node.
   */
  lemma SaveLikeBulkOfOne(schema: Schema, m: Mutation, hooks: seq<Hook>, driver: (seq<Event>, seq<CreateSpec>) -> Reply)
    requires WithDefaults(schema, m.values).1
    ensures var (s, o) := Run(BulkOfOne(schema, m, hooks, driver));
            var (t, p) := OwnSave(schema, m, hooks, driver);
            && |s.nodes| == 1 && Same(s, t)
            && ((p.Failed? <==> o.Failed?) <==> o.Failed? || o.account.Some?)
            && (p == BulkReturns(s, o) <==> o.Failed? || (o.account.Some? && o.account == s.nodes[0]))
  {
    hide WithDefaults, WithHooks, Run;
    var c := BulkOfOne(schema, m, hooks, driver);
    SameHooks(c);
    var (s, o) := Run(c);
    var (t, p) := OwnSave(schema, m, hooks, driver);
    assert (t, p) == WithHooks(c, OwnStart(c.builders[0].mutation));
    assert Same(s, t);
    assert (p.Failed? <==> o.Failed?) <==> o.Failed? || o.account.Some?;
    assert p == BulkReturns(s, o) <==> o.Failed? || (o.account.Some? && o.account == s.nodes[0]);
  }

  /**
   When defaults() fails, the own Save fails at once and inserts nothing; nor does the bulk, unless its hooks repair the
   mutation, and under honest hooks it fails too, with the builder not done.
   */
  lemma FailedDefaultsSaveNothing(schema: Schema, m: Mutation, hooks: seq<Hook>,
          driver: (seq<Event>, seq<CreateSpec>) -> Reply)
    requires !WithDefaults(schema, m.values).1
    ensures var (t, p) := OwnSave(schema, m, hooks, driver); p.Failed? && t.trace == []
    ensures var c := BulkOfOne(schema, m, hooks, driver);
            var (s, o) := Run(c);
            Unrepaired(c, 0) ==> Inserts(s.trace) == 0 && (HonestFrom(c, 0) ==> o.Failed? && s.done == [false])
  {
    hide WithDefaults, Chain, WithHooks, Honest, Check, Unrepaired;
    DroppedErrorHarmless(schema, m.values);
    var c := BulkOfOne(schema, m, hooks, driver);
    assert Mistake(c, 0).Some?;
    if Unrepaired(c, 0) {
      InvalidNeverInserts(c, 0);
      var s := Run(c).0;
      assert |s.done| == 1;
      if HonestFrom(c, 0) {
        assert !s.done[0];
        assert s.done == [false];
      }
    }
  }

  /** A hook that answers without a value and without calling the rest makes the own Save fail and the bulk succeed. */
  lemma SilentHookDiffers(schema: Schema, m: Mutation, hook: Hook, rest: seq<Hook>,
          driver: (seq<Event>, seq<CreateSpec>) -> Reply)
    requires WithDefaults(schema, m.values).1
    requires hook.most == 0 && forall t :: hook.reply(t, []) == Saved(None)
    ensures var (s, o) := Run(BulkOfOne(schema, m, [hook] + rest, driver));
            var (t, p) := OwnSave(schema, m, [hook] + rest, driver);
            p == Failed(UNEXPECTED_TYPE) && BulkReturns(s, o) == Saved(None) && s.done == [false] &&
                Inserts(s.trace) == 0
  {
    hide WithDefaults, Core;
    var c := BulkOfOne(schema, m, [hook] + rest, driver);
    var s1 := Log(Start(c), Enter(0, 0));
    assert Calls(c, 0, 0, [], s1) == (s1, []);
    var s2 := Log(s1, Leave(0, 0, Saved(None)));
    assert Chain(c, 0, 0, Start(c)) == (s2, Saved(None));
    InsertsLog(Start(c), Enter(0, 0));
    InsertsLog(s1, Leave(0, 0, Saved(None)));
    SameHooks(c);
  }

  // ---------- The same, read off a list of hooks ----------

  function AsHooks(ks: seq<HookKind>): (hooks: seq<Hook>)
    ensures |hooks| == |ks| && forall h :: 0 <= h < |ks| ==> hooks[h] == AsHook(ks[h])
  {
    seq(|ks|, h requires 0 <= h < |ks| => AsHook(ks[h]))
  }

  /** The hooks keep nothing from succeeding, and turn no success into a failure. */
  predicate Lets(ks: seq<HookKind>) {
    forall h :: 0 <= h < |ks| ==> ks[h].PassThrough? || ks[h].Swallow?
  }

  /** What can be read off the list before either Save: the hooks do not report a success that is not there. */
  predicate SavesAgree(valid: bool, ks: seq<HookKind>, accepts: bool) {
    Vouches(ks) ==> valid && accepts && Lets(ks)
  }

  /** What the mutator from hook `h` inwards answers: a failure, nothing, or the builder's own node. */
  ghost predicate Reads(valid: bool, ks: seq<HookKind>, accepts: bool, s: State, o: Outcome) {
    && |s.nodes| == 1
    && (if valid && accepts && Lets(ks) then o == Saved(s.nodes[0]) && s.nodes[0].Some?
        else if Vouches(ks) then o == Saved(None)
        else o.Failed?)
  }

  lemma ListFrom(ks: seq<HookKind>, h: nat)
    requires h < |ks|
    ensures Vouches(ks[h..]) <==> if ks[h].PassThrough? then Vouches(ks[h + 1..]) else ks[h].Silent? || ks[h].Swallow?
    ensures Lets(ks[h..]) <==> (ks[h].PassThrough? || ks[h].Swallow?) && Lets(ks[h + 1..])
  {
    var a, b := ks[h..], ks[h + 1..];
    DeciderFrom(ks, h);
    assert a == [ks[h]] + b;
  }

  lemma {:induction false} ReadChain(c: Bulk, ks: seq<HookKind>, h: nat, s: State, accepts: bool)
    requires Single(c) && c.builders[0].hooks == AsHooks(ks) && Steady(c, accepts) && h <= |ks| && Ready(c, 0, s)
    requires Untouched(c, 0, s)
    ensures var (s', o) := Chain(c, 0, h, s); Reads(Mistake(c, 0).None?, ks[h..], accepts, s', o)
    decreases |ks| - h
  {
    hide Core, Chain, Mistake, Vouches, Lets, Steady, Flaw;
    if h == |ks| {
      ChainIsCore(c, 0, s);
      ReadCore(c, s, accepts);
      NothingListed(ks[h..]);
    } else {
      ListFrom(ks, h);
      if ks[h].FailBefore? || ks[h].Silent? {
        CallNever(c, 0, h, s);
      } else {
        CallOnce(c, 0, h, s);
        ReadChain(c, ks, h + 1, Log(s, Enter(0, h)), accepts);
      }
    }
  }

  lemma NothingListed(ks: seq<HookKind>)
    requires ks == []
    ensures Lets(ks) && !Vouches(ks)
  {
  }

  lemma ReadCore(c: Bulk, s: State, accepts: bool)
    requires Single(c) && Steady(c, accepts) && Ready(c, 0, s) && Untouched(c, 0, s)
    ensures var (s', o) := Core(c, 0, s);
            |s'.nodes| == 1 && if Mistake(c, 0).None? && accepts then o == Saved(s'.nodes[0]) && s'.nodes[0].Some?
                               else o.Failed?
  {
    hide Mistake, SpecOf, NodeOf, Flaw;
    NoEditYet(c, 0, s);
  }

  /**
   For hooks of the five plain kinds, a bulk of one and the builder's own Save agree on success exactly if the list says
   so, and if defaults() succeeds they return the same exactly then: they differ if the outermost hook that does not
   pass through reports success, though another hook, check() or the database stands against it.
   */
  lemma SavesAgreeExactly(schema: Schema, m: Mutation, ks: seq<HookKind>,
          driver: (seq<Event>, seq<CreateSpec>) -> Reply, accepts: bool)
    requires forall t, rows :: driver(t, rows).Inserted? == accepts
    ensures var c := BulkOfOne(schema, m, AsHooks(ks), driver);
            var (s, o) := Run(c);
            var (t, p) := OwnSave(schema, m, AsHooks(ks), driver);
            && |s.nodes| == 1
            && ((p.Failed? <==> o.Failed?) <==> SavesAgree(Mistake(c, 0).None?, ks, accepts))
            && (WithDefaults(schema, m.values).1 ==>
                  (p == BulkReturns(s, o) <==> SavesAgree(Mistake(c, 0).None?, ks, accepts)))
  {
    hide WithDefaults, WithHooks, Chain, Vouches, Lets, Mistake;
    var c := BulkOfOne(schema, m, AsHooks(ks), driver);
    assert Steady(c, accepts);
    ReadChain(c, ks, 0, Start(c), accepts);
    assert ks[0..] == ks;
    if WithDefaults(schema, m.values).1 {
      SaveLikeBulkOfOne(schema, m, AsHooks(ks), driver);
    } else {
      DefaultsNeeded(schema, m, AsHooks(ks), driver);
    }
  }

  lemma DefaultsNeeded(schema: Schema, m: Mutation, hooks: seq<Hook>, driver: (seq<Event>, seq<CreateSpec>) -> Reply)
    requires !WithDefaults(schema, m.values).1
    ensures Mistake(BulkOfOne(schema, m, hooks, driver), 0).Some?
  {
    DroppedErrorHarmless(schema, m.values);
  }

  lemma {:induction false} PassedAnswer(c: Bulk, h: nat, s: State)
    requires Single(c) && h <= |c.builders[0].hooks| && Ready(c, 0, s) && AllPassThrough(c)
    ensures var (s', o) := Chain(c, 0, h, s); o.Saved? ==> o.account.Some? && o.account == s'.nodes[0]
    decreases |c.builders[0].hooks| - h
  {
    hide Mistake, Rest;
    if h < |c.builders[0].hooks| {
      HookOnce(c, 0, h, s);
      PassedAnswer(c, h + 1, Log(s, Enter(0, h)));
    }
  }

  /** With pass-through hooks and defaults that succeed, the own Save and a bulk of one return the same. */
  lemma PassThroughSavesAlike(schema: Schema, m: Mutation, hooks: seq<Hook>,
          driver: (seq<Event>, seq<CreateSpec>) -> Reply)
    requires WithDefaults(schema, m.values).1 && forall h :: 0 <= h < |hooks| ==> PassesThrough(hooks[h])
    ensures var (s, o) := Run(BulkOfOne(schema, m, hooks, driver));
            |s.nodes| == 1 && OwnSave(schema, m, hooks, driver).1 == BulkReturns(s, o)
  {
    hide WithDefaults, Chain, OwnSave, PassesThrough;
    var c := BulkOfOne(schema, m, hooks, driver);
    PassedAnswer(c, 0, Start(c));
    SaveLikeBulkOfOne(schema, m, hooks, driver);
  }

  // ---------- What a bulk accepts ----------

  lemma {:induction false} InsertsConcat(a: seq<Event>, b: seq<Event>)
    ensures Inserts(a + b) == Inserts(a) + Inserts(b)
  {
    if b == [] {
      assert a + b == a;
    } else {
      assert (a + b)[..|a + b| - 1] == a + b[..|b| - 1];
      InsertsConcat(a, b[..|b| - 1]);
    }
  }

  lemma {:induction false} NoInserts(t: seq<Event>)
    requires forall k :: 0 <= k < |t| ==> !t[k].Insert?
    ensures Inserts(t) == 0
  {
    if t != [] {
      NoInserts(t[..|t| - 1]);
    }
  }

  /**
   With pass-through hooks a non-empty bulk gets to its one insert exactly when every builder's own Save would get to
   its own.
   */
  lemma BulkAcceptsLikeSaves(c: Bulk, before: seq<map<Column, Value>>)
    requires AllPassThrough(c) && c.builders != [] && |before| == |c.builders|
    requires forall i :: 0 <= i < |before| ==> c.builders[i].mutation.values == WithDefaults(c.schema, before[i]).0
    ensures Inserts(Run(c).0.trace) == if forall i :: 0 <= i < |before| ==>
            SaveAccepts(c.schema, before[i]) then 1 else 0
  {
    hide WithDefaults, Check, Chain;
    BulkAcceptsLikeSave(c.schema, before);
    assert AllValid(c, 0) <==> BulkAccepts(c.schema, before) by {
      assert forall i :: 0 <= i < |before| ==> Mistake(c, i) == Check(c.schema, WithDefaults(c.schema, before[i]).0);
    }
    InsertsPassed(c);
  }

  lemma InsertsPassed(c: Bulk)
    requires AllPassThrough(c) && c.builders != []
    ensures Inserts(Run(c).0.trace) == if AllValid(c, 0) then 1 else 0
  {
    hide AllPassThrough, Chain, Openings, Closings, FirstMistake, VerdictOf, AllValid, Inserts, Run;
    PassThroughRun(c);
    var (s, o) := Run(c);
    var stop := FirstMistake(c, 0);
    var v := VerdictOf(c, 0, 0, Start(c));
    var opens, closes := Openings(c, 0, 0, stop), Closings(c, 0, 0, stop, v);
    ClosingsMirror(c, 0, 0, stop, v);
    forall k | 0 <= k < |closes|
      ensures !closes[k].Insert?
    {
      assert opens[|opens| - 1 - k].Enter?;
    }
    NoInserts(opens);
    NoInserts(closes);
    var middle := s.trace[|opens|..|s.trace| - |closes|];
    assert s.trace == opens + middle + closes;
    InsertsConcat(opens + middle, closes);
    InsertsConcat(opens, middle);
    if AllValid(c, 0) {
      OneInsert(middle);
    } else {
      NoInserts(middle);
    }
  }

  lemma OneInsert(t: seq<Event>)
    requires |t| == 1 && t[0].Insert?
    ensures Inserts(t) == 1
  {
    assert t[..0] == [];
  }
}
