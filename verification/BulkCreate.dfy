/**
 Bulk creation on the heap: builders whose mutations are updated in place, the arrays of specs and nodes that the
 mutators share, and the loop over a hook's calls. Each step is the step of the machine in Mutators.
 */
module BulkCreate {
  import opened Prelude
  import opened AccountRows
  import opened AccountCreation
  import opened Mutators
  import opened MutatorLaws
  import SaveLaws

  class AccountMutation {
    var fields: Mutation
    var id: Option<int>
    var done: bool

    constructor (fields: Mutation)
      ensures this.fields == fields && id == None && !done
    {
      this.fields, id, done := fields, None, false;
    }
  }

  class AccountCreate {
    const mutation: AccountMutation
    const hooks: seq<Hook>

    constructor (mutation: AccountMutation, hooks: seq<Hook>)
      ensures this.mutation == mutation && this.hooks == hooks
    {
      this.mutation, this.hooks := mutation, hooks;
    }

    /** defaults(): sets what is unset, in order, and stops at a default function that was never initialised. */
    method Defaults(schema: Schema) returns (ok: bool)
      modifies mutation`fields
      ensures (mutation.fields.values, ok) == WithDefaults(schema, old(mutation.fields.values))
      ensures mutation.fields == old(mutation.fields).(values := mutation.fields.values)
    {
      ghost var before := mutation.fields.values;
      for k := 0 to |Defaulted()|
        invariant WithDefaults(schema, before) == DefaultsFrom(schema, mutation.fields.values, k)
        invariant mutation.fields == old(mutation.fields).(values := mutation.fields.values)
      {
        var c := Defaulted()[k];
        if c !in mutation.fields.values {
          var v := Default(schema, c);
          if v.None? {
            return false;
          }
          mutation.fields := mutation.fields.(values := mutation.fields.values[c := v.value]);
        }
      }
      ok := true;
    }
  }

  /** What the closures of a Save share. */
  class MutatorChain {
    const schema: Schema
    const builders: seq<AccountCreate>
    const driver: (seq<Event>, seq<CreateSpec>) -> Reply
    const specs: array<Option<Entry>>
    const nodes: array<Option<Node>>
    ghost const mutations: seq<AccountMutation>
    var trace: seq<Event>

    ghost predicate Valid() {
      && specs.Length == nodes.Length == |builders| == |mutations|
      && (forall i :: 0 <= i < |builders| ==> mutations[i] == builders[i].mutation)
      && (forall i, j :: 0 <= i < j < |mutations| ==> mutations[i] != mutations[j])
    }

    /** This is the run of `c`. */
    ghost predicate Runs(c: Bulk) {
      && c.schema == schema && c.driver == driver && |c.builders| == |builders|
      && forall i :: 0 <= i < |builders| ==> c.builders[i].hooks == builders[i].hooks
    }

    ghost function Now(): State
      requires Valid()
      reads this, specs, nodes, mutations
    {
      State(seq(|mutations|, i requires 0 <= i < |mutations| reads mutations => mutations[i].fields),
            specs[..], nodes[..],
            seq(|mutations|, i requires 0 <= i < |mutations| reads mutations => mutations[i].done),
            seq(|mutations|, i requires 0 <= i < |mutations| reads mutations => mutations[i].id), trace)
    }

    lemma FlawNow(c: Bulk, i: nat)
      requires Valid() && Runs(c) && i < |builders|
      ensures |Now().drafts| == |builders| && Flaw(c, i, Now()) == Check(schema, builders[i].mutation.fields.values)
    {
      hide Check;
    }

    lemma NodeNow(i: nat)
      requires Valid() && i < |builders|
      ensures |Now().nodes| == |builders| && Now().nodes[i] == nodes[i]
    {
    }

    constructor (schema: Schema, builders: seq<AccountCreate>, driver: (seq<Event>, seq<CreateSpec>) -> Reply)
      requires forall i, j :: 0 <= i < j < |builders| ==> builders[i].mutation != builders[j].mutation
      ensures Valid() && fresh(specs) && fresh(nodes) && this.schema == schema && this.builders == builders &&
              this.driver == driver
      ensures specs[..] == seq(|builders|, _ => None) && nodes[..] == seq(|builders|, _ => None) && trace == []
    {
      this.schema, this.builders, this.driver := schema, builders, driver;
      specs := new Option<Entry>[|builders|](_ => None);
      nodes := new Option<Node>[|builders|](_ => None);
      mutations := seq(|builders|, i requires 0 <= i < |builders| => builders[i].mutation);
      trace := [];
    }

    method Record(e: Event)
      requires Valid()
      modifies this`trace
      ensures Now() == Log(old(Now()), e)
    {
      trace := trace + [e];
    }

    /** The batch insert, on an array without a missing entry. */
    method Insert(ghost c: Bulk) returns (err: Option<Error>)
      requires Valid() && Runs(c) && Ready(c, |builders|, Now())
      modifies this`trace, specs
      ensures (Now(), err) == BatchCreate(c, old(Now()))
    {
      ghost var s := Now();
      var rows := seq(|builders|, i requires 0 <= i < |builders| && specs[i].Some? reads specs => specs[i].value.spec);
      assert rows == Rows(c, s);
      var reply := driver(trace, rows);
      Record(Event.Insert(rows, reply));
      ghost var s1 := Now();
      match reply {
        case Refused(error) =>
          err := Some(error);
        case Inserted(ids) =>
          FillKeys(ids);
          err := None;
      }
    }

    method FillKeys(ids: nat -> Option<int>)
      requires Valid()
      modifies specs
      ensures Now() == old(Now()).(specs := KeyedAll(old(specs[..]), ids))
    {
      for i := 0 to specs.Length
        invariant forall j :: 0 <= j < i ==> specs[j] == Keyed(old(specs[..])[j], ids(j))
        invariant forall j :: i <= j < specs.Length ==> specs[j] == old(specs[..])[j]
      {
        specs[i] := Keyed(specs[i], ids(i));
      }
      assert specs[..] == KeyedAll(old(specs[..]), ids);
    }

    /** createSpec of builder `i`, stored in the shared arrays. */
    method Prepare(ghost c: Bulk, i: nat)
      requires Valid() && Runs(c) && i < |builders| && Ready(c, i, Now())
      modifies specs, nodes
      ensures Now() == Prepared(c, i, old(Now()))
    {
      hide NodeOf, SpecOf;
      var m := builders[i].mutation.fields;
      assert m == Now().drafts[i];
      nodes[i] := Some(Node(NodeOf(m), 0));
      specs[i] := Some(Entry(SpecOf(m), None));
    }

    /** The node takes over the key of its entry, and the mutation is done. */
    method Finish(ghost c: Bulk, i: nat)
      requires Valid() && Runs(c) && Ready(c, i + 1, Now())
      modifies nodes, mutations`id, mutations`done
      ensures Now() == Finished(c, i, old(Now()))
    {
      var mutation := builders[i].mutation;
      assert specs[i] == Now().specs[i] && nodes[i] == Now().nodes[i];
      if specs[i].value.id.Some? {
        nodes[i] := Some(nodes[i].value.(id := specs[i].value.id.value));
      }
      mutation.id := Some(nodes[i].value.id);
      mutation.done := true;
    }

    /** The hook edits the mutation in place before its next call. */
    method EditDraft(ghost c: Bulk, i: nat, h: nat, outs: seq<Outcome>)
      requires Valid() && Runs(c) && i < |builders| && h < |builders[i].hooks| && Ready(c, i, Now())
      modifies mutations`fields
      ensures Now() == Edited(c, i, h, outs, old(Now()))
    {
      var mutation := builders[i].mutation;
      assert mutation.fields == Now().drafts[i];
      mutation.fields := builders[i].hooks[h].edit(trace, outs, mutation.fields);
    }

    /** The mutator of builder `i`, from its hook `h` inwards. */
    method Mutate(ghost c: Bulk, i: nat, h: nat) returns (o: Outcome)
      requires Valid() && Runs(c) && i < |builders| && h <= |builders[i].hooks| && Ready(c, i, Now())
      modifies this`trace, specs, nodes, mutations
      ensures (Now(), o) == Chain(c, i, h, old(Now()))
      decreases |builders| - i, |builders[i].hooks| - h, 1
    {
      hide Core, Calls, Ready, Now;
      if h == |builders[i].hooks| {
        o := Inner(c, i);
      } else {
        o := CallHook(c, i, h);
      }
    }

    /** A hook around the rest of the chain. */
    method CallHook(ghost c: Bulk, i: nat, h: nat) returns (o: Outcome)
      requires Valid() && Runs(c) && i < |builders| && h < |builders[i].hooks| && Ready(c, i, Now())
      modifies this`trace, specs, nodes, mutations
      ensures (Now(), o) == Chain(c, i, h, old(Now()))
      decreases |builders| - i, |builders[i].hooks| - h, 0
    {
      hide Core;
      var hook := builders[i].hooks[h];
      assert c.builders[i].hooks[h] == hook;
      Record(Enter(i, h));
      ghost var s := Now();
      var outs := [];
      while |outs| < hook.most && hook.again(trace, outs)
        invariant Runs(c) && Ready(c, i, s) && Ready(c, i, Now()) && |outs| <= hook.most
        invariant Calls(c, i, h, [], s) == Calls(c, i, h, outs, Now())
        decreases hook.most - |outs|
      {
        EditDraft(c, i, h, outs);
        var r := Mutate(c, i, h + 1);
        outs := outs + [r];
      }
      assert Calls(c, i, h, [], s) == (Now(), outs);
      o := hook.reply(trace, outs);
      Record(Leave(i, h, o));
    }

    /** The innermost mutator of builder `i`. */
    method Inner(ghost c: Bulk, i: nat) returns (o: Outcome)
      requires Valid() && Runs(c) && i < |builders| && Ready(c, i, Now())
      modifies this`trace, specs, nodes, mutations
      ensures (Now(), o) == Core(c, i, old(Now()))
      decreases |builders| - i, 0, 0
    {
      hide Chain, BatchCreate, Ready, Now, Prepared, Finished, Check, Flaw;
      var err := Check(schema, builders[i].mutation.fields.values);
      FlawNow(c, i);
      if err.Some? {
        return Failed(Invalid(err.value));
      }
      Prepare(c, i);
      var failure;
      if i < |builders| - 1 {
        var r := Mutate(c, i + 1, 0);
        failure := ErrorOf(r);
      } else {
        failure := Insert(c);
      }
      if failure.Some? {
        return Failed(failure.value);
      }
      Finish(c, i);
      NodeNow(i);
      o := Saved(nodes[i]);
    }
  }

  class AccountCreateBulk {
    const err: Option<Error>
    const builders: seq<AccountCreate>

    constructor (err: Option<Error>, builders: seq<AccountCreate>)
      ensures this.err == err && this.builders == builders
    {
      this.err, this.builders := err, builders;
    }

    /** Each builder has a mutation of its own. */
    ghost predicate Valid() {
      forall i, j :: 0 <= i < j < |builders| ==> builders[i].mutation != builders[j].mutation
    }

    ghost function Mutations(): set<AccountMutation> {
      set b | b in builders :: b.mutation
    }

    /** The run that Save starts: the builders after their defaults. */
    ghost function Config(schema: Schema, driver: (seq<Event>, seq<CreateSpec>) -> Reply): Bulk
      reads Mutations()
    {
      Bulk(schema, seq(|builders|, i requires 0 <= i < |builders| reads Mutations() =>
             Builder(Filled(schema, builders[i].mutation.fields), builders[i].hooks)), driver)
    }

    /** The mutations after their defaults; specs and nodes are still to come. */
    ghost function Before(schema: Schema): State
      reads Mutations()
    {
      State(seq(|builders|, i requires 0 <= i < |builders| reads Mutations() =>
              Filled(schema, builders[i].mutation.fields)),
            seq(|builders|, _ => None), seq(|builders|, _ => None),
            seq(|builders|, i requires 0 <= i < |builders| reads Mutations() => builders[i].mutation.done),
            seq(|builders|, i requires 0 <= i < |builders| reads Mutations() => builders[i].mutation.id), [])
    }

    /** The first half of Save's loop; what defaults() returns is dropped. */
    method ApplyDefaults(schema: Schema)
      requires Valid()
      modifies Mutations()`fields
      ensures forall i :: 0 <= i < |builders| ==>
              builders[i].mutation.fields == old(Filled(schema, builders[i].mutation.fields))
    {
      hide WithDefaults;
      for i := 0 to |builders|
        invariant forall j :: 0 <= j < i ==>
                builders[j].mutation.fields == old(Filled(schema, builders[j].mutation.fields))
        invariant forall j :: i <= j < |builders| ==> builders[j].mutation.fields == old(builders[j].mutation.fields)
      {
        assert forall j :: 0 <= j < |builders| && j != i ==> builders[j].mutation != builders[i].mutation;
        var _ := builders[i].Defaults(schema);
      }
    }

    ghost predicate NoneDone()
      reads Mutations()
    {
      forall i :: 0 <= i < |builders| ==> !builders[i].mutation.done
    }

    /** The builders marked done are a suffix. */
    ghost predicate DoneSuffix()
      reads Mutations()
    {
      forall i, j :: 0 <= i <= j < |builders| && builders[i].mutation.done ==> builders[j].mutation.done
    }

    /** All are done, with nodes that hold what the mutations do and the key that the mutations have. */
    ghost predicate AllStored(nodes: seq<Option<Node>>)
      reads Mutations()
    {
      |nodes| == |builders| && forall i :: 0 <= i < |builders| ==>
        && builders[i].mutation.done && nodes[i].Some? && nodes[i].value.values == NodeOf(builders[i].mutation.fields)
        && builders[i].mutation.id == Some(nodes[i].value.id)
    }

    /** The mutations are what `s` says. */
    ghost predicate Reflects(s: State)
      reads Mutations()
    {
      |s.drafts| == |s.done| == |s.ids| == |builders| && forall i :: 0 <= i < |builders| ==>
        && builders[i].mutation.fields == s.drafts[i] && builders[i].mutation.done == s.done[i]
        && builders[i].mutation.id == s.ids[i]
    }

    /** The first loop of Save: defaults, and the chain that the mutators share. */
    method NewChain(schema: Schema, driver: (seq<Event>, seq<CreateSpec>) -> Reply) returns (chain: MutatorChain)
      requires Valid()
      modifies Mutations()`fields
      ensures fresh(chain) && fresh(chain.specs) && fresh(chain.nodes)
      ensures chain.Valid() && chain.builders == builders && chain.Runs(old(Config(schema, driver)))
      ensures chain.Now() == old(Before(schema))
    {
      hide WithDefaults, Filled;
      ghost var c, s := Config(schema, driver), Before(schema);
      ApplyDefaults(schema);
      chain := new MutatorChain(schema, builders, driver);
      StartsRun(c, s, chain);
    }

    /** Save without a recorded error. */
    method RunChain(schema: Schema, driver: (seq<Event>, seq<CreateSpec>) -> Reply)
        returns (error: Option<Error>, nodes: seq<Option<Node>>, ghost end: State)
      requires Valid()
      modifies Mutations()
      ensures var (s, o) := RunFrom(old(Config(schema, driver)), old(Before(schema))); end == s && error == ErrorOf(o)
      ensures Reflects(end) && nodes == if error.None? then end.nodes else []
    {
      hide WithDefaults, Chain, Filled, MutatorChain.Now, Reflects, Config, Before;
      ghost var c := Config(schema, driver);
      ConfigSize(schema, driver);
      var chain := NewChain(schema, driver);
      error := None;
      if |builders| > 0 {
        var o := chain.Mutate(c, 0, 0);
        error := ErrorOf(o);
      }
      end := chain.Now();
      nodes := if error.None? then chain.nodes[..] else [];
      NowReflected(chain);
    }

    lemma ConfigSize(schema: Schema, driver: (seq<Event>, seq<CreateSpec>) -> Reply)
      ensures |Config(schema, driver).builders| == |builders| && Ready(Config(schema, driver), 0, Before(schema))
    {
      hide Filled;
    }

    lemma NowReflected(chain: MutatorChain)
      requires chain.Valid() && chain.builders == builders
      ensures Reflects(chain.Now()) && chain.Now().nodes == chain.nodes[..]
    {
    }

    method Save(schema: Schema, driver: (seq<Event>, seq<CreateSpec>) -> Reply)
        returns (error: Option<Error>, nodes: seq<Option<Node>>, ghost end: State)
      requires Valid()
      modifies Mutations()
      ensures err.Some? ==> error == err && nodes == [] && unchanged(Mutations())
      ensures err.None? ==>
              var (s, o) := RunFrom(old(Config(schema, driver)), old(Before(schema)));
              end == s && error == ErrorOf(o) && Reflects(end)
      ensures nodes == if err.None? && error.None? then end.nodes else []
      ensures err.None? ==> SaveLaws.InsertsCleared(old(Config(schema, driver)), end.trace)
      ensures err.None? ==> SaveLaws.RowsComplete(schema, end.trace)
      ensures err.None? && old(NoneDone()) && HonestFrom(old(Config(schema, driver)), 1) ==>
                DoneSuffix() && (NoneDone() || SomeInserted(end.trace))
      ensures err.None? && old(NoneDone()) && HonestFrom(old(Config(schema, driver)), 0) && error.None? ==>
                AllStored(nodes)
    {
      hide Chain, Suffix, Landed, SomeInserted, HonestFrom, SaveLaws.InsertsCleared, SaveLaws.SpecsCleared,
           SaveLaws.RowsComplete, Reflects, AllStored, DoneSuffix, NoneDone;
      if err.Some? {
        return err, [], State([], [], [], [], [], []);
      }
      ghost var c, s := Config(schema, driver), Before(schema);
      BeforeReady(schema, driver);
      SaveLaws.InsertsOnlyChecked(c, s);
      SaveLaws.InsertsComplete(c, s);
      HonestMore(c);
      error, nodes, end := RunChain(schema, driver);
      if old(NoneDone()) && HonestFrom(c, 1) {
        ShapeFrom(c, s);
        ShapeShown(c, end);
      }
    }

    lemma BeforeReady(schema: Schema, driver: (seq<Event>, seq<CreateSpec>) -> Reply)
      ensures var c, s := Config(schema, driver), Before(schema);
              && Ready(c, 0, s) && SaveLaws.SpecsCleared(c, s) && SaveLaws.InsertsCleared(c, s.trace)
              && (NoneDone() ==> Suffix(s)) && (builders == [] ==> s.nodes == [])
    {
      hide WithDefaults, SomeInserted;
      var s := Before(schema);
      assert forall j :: 0 <= j < |builders| ==> s.done[j] == builders[j].mutation.done;
    }

    /** The shape of the machine's state, on the builders. */
    lemma ShapeShown(c: Bulk, s: State)
      requires Reflects(s) && Suffix(s) && |c.builders| == |builders|
      ensures DoneSuffix() && (NoneDone() || SomeInserted(s.trace))
      ensures Landed(c, 0, s) || (builders == [] && s.nodes == []) ==> AllStored(s.nodes)
    {
      hide SomeInserted, NodeOf, SpecOf, KeysGiven;
    }
  }

  lemma HonestMore(c: Bulk)
    ensures HonestFrom(c, 0) ==> HonestFrom(c, 1)
  {
    hide Honest;
  }

  lemma StartsRun(c: Bulk, s: State, chain: MutatorChain)
    requires chain.Valid() && c.schema == chain.schema && c.driver == chain.driver && |c.builders| == |chain.builders|
    requires |s.drafts| == |s.done| == |s.ids| == |chain.builders| && chain.trace == s.trace
    requires chain.specs[..] == s.specs && chain.nodes[..] == s.nodes
    requires forall i :: 0 <= i < |chain.builders| ==>
               c.builders[i].hooks == chain.builders[i].hooks && chain.mutations[i].fields == s.drafts[i]
               && chain.mutations[i].done == s.done[i] && chain.mutations[i].id == s.ids[i]
    ensures chain.Runs(c) && chain.Now() == s
  {
  }

  function Filled(schema: Schema, m: Mutation): Mutation {
    m.(values := WithDefaults(schema, m.values).0)
  }
}
