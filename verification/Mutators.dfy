/**
 Bulk creation on values: the chain of mutators as a machine. Every builder has hooks around a core that validates,
 fills in its spec and goes on to the next builder; the last core runs the one batch insert. A hook is free to call
 the rest of the chain as often as it likes, to edit its builder's mutation before each call and to answer anything, and
 may look at all that happened so far.
 */
module Mutators {
  import opened Prelude
  import opened AccountRows
  import opened AccountCreation

  datatype Error = Invalid(column: Column) | Raised(message: string)

  /** A row handed to the batch insert; the insert fills in the key. */
  datatype Entry = Entry(spec: CreateSpec, id: Option<int>)

  datatype Node = Node(values: map<Column, Value>, id: int)

  /** What a mutator returns: an error, or a value, which a hook may replace by nothing that is an account. */
  datatype Outcome = Saved(account: Option<Node>) | Failed(error: Error)

  datatype Reply = Inserted(ids: nat -> Option<int>) | Refused(error: Error)

  datatype Event =
    | Enter(builder: nat, hook: nat)
    | Leave(builder: nat, hook: nat, outcome: Outcome)
    | Insert(rows: seq<CreateSpec>, reply: Reply)

  /** At most `most` calls of the rest: `again` decides on each, `edit` comes before it, `reply` is the answer. */
  datatype Hook = Hook(most: nat, again: (seq<Event>, seq<Outcome>) -> bool,
      edit: (seq<Event>, seq<Outcome>, Mutation) -> Mutation, reply: (seq<Event>, seq<Outcome>) -> Outcome)

  datatype Builder = Builder(mutation: Mutation, hooks: seq<Hook>)

  /** The database answers according to what happened before and to the rows it gets. */
  datatype Bulk = Bulk(schema: Schema, builders: seq<Builder>, driver: (seq<Event>, seq<CreateSpec>) -> Reply)

  /** `drafts` are the builders' mutations as they are now. */
  datatype State = State(drafts: seq<Mutation>, specs: seq<Option<Entry>>, nodes: seq<Option<Node>>, done: seq<bool>,
      ids: seq<Option<int>>, trace: seq<Event>)

  /** The first `k` builders have handed in their specs. */
  predicate Ready(c: Bulk, k: nat, s: State) {
    && |s.drafts| == |s.specs| == |s.nodes| == |s.done| == |s.ids| == |c.builders| && k <= |c.builders|
    && forall j :: 0 <= j < k ==> s.specs[j].Some? && s.nodes[j].Some?
  }

  function Log(s: State, e: Event): State {
    s.(trace := s.trace + [e])
  }

  /** What check() objects to in builder `i`, as its mutation is now. */
  function Flaw(c: Bulk, i: nat, s: State): Option<Column>
    requires i < |s.drafts|
  {
    Check(c.schema, s.drafts[i].values)
  }

  // ---------- The steps ----------

  /** createSpec of builder `i`, stored. */
  function Prepared(c: Bulk, i: nat, s: State): (s': State)
    requires i < |c.builders| && Ready(c, i, s)
    ensures Ready(c, i + 1, s')
  {
    var m := s.drafts[i];
    s.(specs := s.specs[i := Some(Entry(SpecOf(m), None))], nodes := s.nodes[i := Some(Node(NodeOf(m), 0))])
  }

  function Rows(c: Bulk, s: State): (rows: seq<CreateSpec>)
    requires Ready(c, |c.builders|, s)
    ensures |rows| == |c.builders| && forall i :: 0 <= i < |rows| ==> rows[i] == s.specs[i].value.spec
  {
    seq(|s.specs|, i requires 0 <= i < |s.specs| => s.specs[i].value.spec)
  }

  function Keyed(e: Option<Entry>, id: Option<int>): Option<Entry> {
    if e.Some? && id.Some? then Some(e.value.(id := id)) else e
  }

  function KeyedAll(specs: seq<Option<Entry>>, ids: nat -> Option<int>): (specs': seq<Option<Entry>>)
    ensures |specs'| == |specs| && forall i :: 0 <= i < |specs| ==> specs'[i] == Keyed(specs[i], ids(i))
  {
    seq(|specs|, i requires 0 <= i < |specs| => Keyed(specs[i], ids(i)))
  }

  /** The batch insert: no entry is missing, and on success each gets its key. */
  function BatchCreate(c: Bulk, s: State): (r: (State, Option<Error>))
    requires Ready(c, |c.builders|, s)
    ensures Ready(c, |c.builders|, r.0)
  {
    var reply := c.driver(s.trace, Rows(c, s));
    var s := Log(s, Insert(Rows(c, s), reply));
    match reply
    case Refused(error) => (s, Some(error))
    case Inserted(ids) => (s.(specs := KeyedAll(s.specs, ids)), None)
  }

  /** What a core does after the rest has succeeded. */
  function Finished(c: Bulk, i: nat, s: State): (s': State)
    requires Ready(c, i + 1, s)
    ensures Ready(c, i + 1, s')
  {
    var n := s.nodes[i].value;
    var id := if s.specs[i].value.id.Some? then s.specs[i].value.id.value else n.id;
    s.(nodes := s.nodes[i := Some(n.(id := id))], done := s.done[i := true], ids := s.ids[i := Some(id)])
  }

  // ---------- The chain ----------

  function Core(c: Bulk, i: nat, s: State): (r: (State, Outcome))
    requires i < |c.builders| && Ready(c, i, s)
    ensures Ready(c, i, r.0)
    decreases |c.builders| - i, 0, 0
  {
    if Flaw(c, i, s).Some? then (s, Failed(Invalid(Flaw(c, i, s).value)))
    else
      var (s', err) := Rest(c, i, Prepared(c, i, s));
      if err.Some? then (s', Failed(err.value)) else (Finished(c, i, s'), Saved(Finished(c, i, s').nodes[i]))
  }

  function ErrorOf(o: Outcome): Option<Error> {
    if o.Failed? then Some(o.error) else None
  }

  /** What a core calls once its own spec is in: the next mutator, whose value is dropped, or the batch insert. */
  function Rest(c: Bulk, i: nat, s: State): (r: (State, Option<Error>))
    requires Ready(c, i + 1, s)
    ensures Ready(c, i + 1, r.0)
    decreases |c.builders| - i - 1, 2 * (if i + 1 < |c.builders| then |c.builders[i + 1].hooks| else 0) + 2, 0
  {
    if i < |c.builders| - 1 then
      var (s', o) := Chain(c, i + 1, 0, s);
      (s', ErrorOf(o))
    else BatchCreate(c, s)
  }

  /** The mutator of builder `i` from its hook `h` inwards. */
  function Chain(c: Bulk, i: nat, h: nat, s: State): (r: (State, Outcome))
    requires i < |c.builders| && h <= |c.builders[i].hooks| && Ready(c, i, s)
    ensures Ready(c, i, r.0)
    decreases |c.builders| - i, 2 * (|c.builders[i].hooks| - h) + 1, 0
  {
    if h == |c.builders[i].hooks| then Core(c, i, s)
    else
      var (s', outs) := Calls(c, i, h, [], Log(s, Enter(i, h)));
      var o := c.builders[i].hooks[h].reply(s'.trace, outs);
      (Log(s', Leave(i, h, o)), o)
  }

  /** Hook `h` of builder `i` edits the mutation before its next call. */
  function Edited(c: Bulk, i: nat, h: nat, outs: seq<Outcome>, s: State): (s': State)
    requires i < |c.builders| && h < |c.builders[i].hooks| && Ready(c, i, s)
    ensures Ready(c, i, s') && s' == s.(drafts := s'.drafts)
    ensures forall j :: 0 <= j < |c.builders| && j != i ==> s'.drafts[j] == s.drafts[j]
  {
    s.(drafts := s.drafts[i := c.builders[i].hooks[h].edit(s.trace, outs, s.drafts[i])])
  }

  /** The calls a hook still makes after those that gave `outs`. */
  function Calls(c: Bulk, i: nat, h: nat, outs: seq<Outcome>, s: State): (r: (State, seq<Outcome>))
    requires i < |c.builders| && h < |c.builders[i].hooks| && Ready(c, i, s)
    ensures Ready(c, i, r.0)
    decreases |c.builders| - i, 2 * (|c.builders[i].hooks| - h), c.builders[i].hooks[h].most - |outs|
  {
    var hook := c.builders[i].hooks[h];
    if |outs| >= hook.most || !hook.again(s.trace, outs) then (s, outs)
    else
      var (s', o) := Chain(c, i, h + 1, Edited(c, i, h, outs, s));
      Calls(c, i, h, outs + [o], s')
  }

  // ---------- A whole run ----------

  function Start(c: Bulk): State {
    var n := |c.builders|;
    State(seq(n, i requires 0 <= i < n => c.builders[i].mutation), seq(n, _ => None), seq(n, _ => None),
          seq(n, _ => false), seq(n, _ => None), [])
  }

  /** Save without builders calls no mutator at all. */
  function RunFrom(c: Bulk, s: State): (State, Outcome)
    requires Ready(c, 0, s)
  {
    if c.builders == [] then (s, Saved(None)) else Chain(c, 0, 0, s)
  }

  /** A run on builders that were not saved before. */
  function Run(c: Bulk): (State, Outcome) {
    RunFrom(c, Start(c))
  }
}
