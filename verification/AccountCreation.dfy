/**
 Creating one account: defaults, validation, and what the two have to do with each other.
 */
module AccountCreation {
  import opened Prelude
  import opened AccountRows

  /**
   The package variables that ent/runtime initialises: default functions may be missing, and yield a value when called.
   */
  datatype Schema = Schema(createdAt: Option<int>, updatedAt: Option<int>, credentials: Option<Document>,
      extra: Option<Document>,
                           concurrency: int, priority: int, rateMultiplier: real, status: string,
                           autoPauseOnExpired: bool, schedulable: bool,
                           validName: string -> bool, validPlatform: string -> bool, validType: string -> bool,
                           validStatus: string -> bool, validSessionWindowStatus: string -> bool)

  const GLOBAL := "global"
  const SPARK := "spark"

  // ---------- defaults ----------

  /** The columns that have a default, in the order of defaults(). */
  function Defaulted(): seq<Column> {
    [CreatedAt, UpdatedAt, Credentials, Extra, Concurrency, Priority, RateMultiplier, Status, AutoPauseOnExpired,
        Schedulable, QuotaDimension]
  }

  /** None stands for an uninitialised default function. */
  function Default(schema: Schema, c: Column): Option<Value> {
    match c
    case CreatedAt => if schema.createdAt.Some? then Some(Time(schema.createdAt.value)) else None
    case UpdatedAt => if schema.updatedAt.Some? then Some(Time(schema.updatedAt.value)) else None
    case Credentials => if schema.credentials.Some? then Some(Json(schema.credentials.value)) else None
    case Extra => if schema.extra.Some? then Some(Json(schema.extra.value)) else None
    case Concurrency => Some(Int(schema.concurrency))
    case Priority => Some(Int(schema.priority))
    case RateMultiplier => Some(Float(schema.rateMultiplier))
    case Status => Some(Text(schema.status))
    case AutoPauseOnExpired => Some(Flag(schema.autoPauseOnExpired))
    case Schedulable => Some(Flag(schema.schedulable))
    case QuotaDimension => Some(Text(GLOBAL))
    case _ => None
  }

  /** defaults() from the k-th column on: it stops at the first missing default function. */
  function DefaultsFrom(schema: Schema, values: map<Column, Value>, k: nat): (map<Column, Value>, bool)
    decreases |Defaulted()| - k
  {
    if k >= |Defaulted()| then (values, true)
    else if Defaulted()[k] in values then DefaultsFrom(schema, values, k + 1)
    else if Default(schema, Defaulted()[k]).None? then (values, false)
    else DefaultsFrom(schema, values[Defaulted()[k] := Default(schema, Defaulted()[k]).value], k + 1)
  }

  function WithDefaults(schema: Schema, values: map<Column, Value>): (map<Column, Value>, bool) {
    DefaultsFrom(schema, values, 0)
  }

  lemma DefaultedDistinct()
    ensures forall i, j :: 0 <= i < j < |Defaulted()| ==> Defaulted()[i] != Defaulted()[j]
  {
  }

  /** Defaults change no field that was set, and set each other field, if at all, to its default. */
  lemma {:induction false} DefaultsOnlyAdd(schema: Schema, values: map<Column, Value>, k: nat)
    requires k <= |Defaulted()|
    ensures var after := DefaultsFrom(schema, values, k).0;
            && (forall c :: c in values ==> c in after && after[c] == values[c])
            && (forall c :: c in after && c !in values ==> c in Defaulted() && Default(schema, c) == Some(after[c]))
    decreases |Defaulted()| - k
  {
    hide Defaulted, Default;
    if k < |Defaulted()| {
      var c := Defaulted()[k];
      if c in values {
        DefaultsOnlyAdd(schema, values, k + 1);
      } else if Default(schema, c).Some? {
        DefaultsOnlyAdd(schema, values[c := Default(schema, c).value], k + 1);
      }
    }
  }

  /**
   Defaults succeed exactly when no unset field lacks its default function; then every defaulted field is set, else one
   is not.
   */
  lemma {:induction false} DefaultsComplete(schema: Schema, values: map<Column, Value>, k: nat)
    requires k <= |Defaulted()|
    ensures var (after, ok) := DefaultsFrom(schema, values, k);
            && (ok <==> forall i :: k <= i < |Defaulted()| ==>
                Defaulted()[i] in values || Default(schema, Defaulted()[i]).Some?)
            && (ok <==> forall i :: k <= i < |Defaulted()| ==> Defaulted()[i] in after)
    decreases |Defaulted()| - k
  {
    hide Default, Defaulted;
    DefaultedDistinct();
    if k < |Defaulted()| {
      var c := Defaulted()[k];
      if c in values {
        DefaultsComplete(schema, values, k + 1);
        DefaultsOnlyAdd(schema, values, k + 1);
      } else if Default(schema, c).Some? {
        var values' := values[c := Default(schema, c).value];
        DefaultsComplete(schema, values', k + 1);
        DefaultsOnlyAdd(schema, values', k + 1);
      }
    }
  }

  /** A field that was set keeps its value, and one that was not has the default `v`. */
  predicate Holds(before: map<Column, Value>, after: map<Column, Value>, c: Column, v: Value) {
    c in after && after[c] == if c in before then before[c] else v
  }

  lemma DefaultHeld(schema: Schema, values: map<Column, Value>, i: nat)
    requires i < |Defaulted()| && WithDefaults(schema, values).1
    ensures var after, c := WithDefaults(schema, values).0, Defaulted()[i];
            && c in after && (c in values ==> after[c] == values[c])
            && (c !in values ==> Default(schema, c) == Some(after[c]))
  {
    hide Defaulted, Default;
    DefaultsComplete(schema, values, 0);
    DefaultsOnlyAdd(schema, values, 0);
  }

  lemma DefaultedAt()
    ensures var cs := Defaulted();
            && |cs| == 11 && cs[0] == CreatedAt && cs[1] == UpdatedAt && cs[2] == Credentials && cs[3] == Extra
            && cs[4] == Concurrency && cs[5] == Priority && cs[6] == RateMultiplier && cs[7] == Status
            && cs[8] == AutoPauseOnExpired && cs[9] == Schedulable && cs[10] == QuotaDimension
  {
  }

  lemma DefaultHolds(schema: Schema, values: map<Column, Value>, i: nat)
    requires i < |Defaulted()| && WithDefaults(schema, values).1
    ensures var c := Defaulted()[i];
            if Default(schema, c).Some? then Holds(values, WithDefaults(schema, values).0, c, Default(schema, c).value)
            else c in values
  {
    hide Defaulted, Default, WithDefaults;
    DefaultHeld(schema, values, i);
  }

  /** The defaults, field by field, once defaults() has succeeded. */
  lemma DefaultValues(schema: Schema, values: map<Column, Value>)
    requires WithDefaults(schema, values).1
    ensures var after := WithDefaults(schema, values).0;
            && (schema.createdAt.Some? ==> Holds(values, after, CreatedAt, Time(schema.createdAt.value)))
            && (schema.updatedAt.Some? ==> Holds(values, after, UpdatedAt, Time(schema.updatedAt.value)))
            && (schema.credentials.Some? ==> Holds(values, after, Credentials, Json(schema.credentials.value)))
            && (schema.extra.Some? ==> Holds(values, after, Extra, Json(schema.extra.value)))
            && Holds(values, after, Concurrency, Int(schema.concurrency))
            && Holds(values, after, Priority, Int(schema.priority))
            && Holds(values, after, RateMultiplier, Float(schema.rateMultiplier))
            && Holds(values, after, Status, Text(schema.status))
            && Holds(values, after, AutoPauseOnExpired, Flag(schema.autoPauseOnExpired))
            && Holds(values, after, Schedulable, Flag(schema.schedulable))
            && Holds(values, after, QuotaDimension, Text("global"))
    ensures (schema.createdAt.None? ==> CreatedAt in values) && (schema.updatedAt.None? ==> UpdatedAt in values)
    ensures (schema.credentials.None? ==> Credentials in values) && (schema.extra.None? ==> Extra in values)
  {
    hide WithDefaults, Defaulted, Holds;
    DefaultedAt();
    forall i | 0 <= i < |Defaulted()|
      ensures var c := Defaulted()[i];
              if Default(schema, c).Some? then
                Holds(values, WithDefaults(schema, values).0, c, Default(schema, c).value)
              else c in values
    {
      DefaultHolds(schema, values, i);
    }
  }

  /** Running defaults() again changes nothing and fails again if it failed. */
  lemma DefaultsIdempotent(schema: Schema, values: map<Column, Value>)
    ensures var (after, ok) := WithDefaults(schema, values); WithDefaults(schema, after) == (after, ok)
  {
    Settled(schema, values, 0);
  }

  lemma {:induction false} Settled(schema: Schema, values: map<Column, Value>, k: nat)
    requires k <= |Defaulted()| && forall i :: 0 <= i < k ==> Defaulted()[i] in values
    ensures var (after, ok) := DefaultsFrom(schema, values, k); DefaultsFrom(schema, after, 0) == (after, ok)
    decreases |Defaulted()| - k
  {
    hide Defaulted, Default;
    if k < |Defaulted()| {
      var c := Defaulted()[k];
      if c in values {
        Settled(schema, values, k + 1);
      } else if Default(schema, c).Some? {
        Settled(schema, values[c := Default(schema, c).value], k + 1);
      } else {
        SkipsSet(schema, values, 0, k);
      }
    } else {
      SkipsSet(schema, values, 0, k);
    }
  }

  lemma {:induction false} SkipsSet(schema: Schema, values: map<Column, Value>, j: nat, k: nat)
    requires j <= k <= |Defaulted()| && forall i :: j <= i < k ==> Defaulted()[i] in values
    ensures DefaultsFrom(schema, values, j) == DefaultsFrom(schema, values, k)
    decreases k - j
  {
    hide Defaulted, Default;
    if j < k {
      SkipsSet(schema, values, j + 1, k);
    }
  }

  // ---------- check ----------

  /** The columns that check() looks at, in its order. */
  function Checked(): seq<Column> {
    [CreatedAt, UpdatedAt, Name, Platform, Type, Credentials, Extra, Concurrency, Priority, RateMultiplier, Status,
     AutoPauseOnExpired, Schedulable, SessionWindowStatus, QuotaDimension]
  }

  predicate Required(c: Column) {
    c != SessionWindowStatus
  }

  predicate Valid(schema: Schema, c: Column, v: Value) {
    v.Text? ==>
      match c
      case Name => schema.validName(v.text)
      case Platform => schema.validPlatform(v.text)
      case Type => schema.validType(v.text)
      case Status => schema.validStatus(v.text)
      case SessionWindowStatus => schema.validSessionWindowStatus(v.text)
      case QuotaDimension => v.text == GLOBAL || v.text == SPARK
      case _ => true
  }

  predicate Passes(schema: Schema, values: map<Column, Value>, c: Column) {
    if c in values then Valid(schema, c, values[c]) else !Required(c)
  }

  /** The field of the first ValidationError from the k-th column on. */
  function CheckFrom(schema: Schema, values: map<Column, Value>, k: nat): Option<Column>
    decreases |Checked()| - k
  {
    if k >= |Checked()| then None
    else if !Passes(schema, values, Checked()[k]) then Some(Checked()[k])
    else CheckFrom(schema, values, k + 1)
  }

  function Check(schema: Schema, values: map<Column, Value>): Option<Column> {
    CheckFrom(schema, values, 0)
  }

  /** check() succeeds exactly when every column passes, and otherwise names the first that does not. */
  lemma {:induction false} CheckExactly(schema: Schema, values: map<Column, Value>, k: nat)
    ensures var r := CheckFrom(schema, values, k);
            && (r.None? <==> forall i :: k <= i < |Checked()| ==> Passes(schema, values, Checked()[i]))
            && (r.Some? ==>
                exists i :: k <= i < |Checked()| && Checked()[i] == r.value && !Passes(schema, values, r.value)
                                    && forall j :: k <= j < i ==> Passes(schema, values, Checked()[j]))
    decreases |Checked()| - k
  {
    hide Checked, Passes;
    if k < |Checked()| && Passes(schema, values, Checked()[k]) {
      CheckExactly(schema, values, k + 1);
    }
  }

  /** A text field satisfies its validator; the static type of these fields is string. */
  predicate Satisfies(valid: string -> bool, values: map<Column, Value>, c: Column) {
    c in values && values[c].Text? ==> valid(values[c].text)
  }

  /** Fourteen fields must be set, five texts have validators of their own, and one field is an enumeration. */
  predicate Demands(schema: Schema, values: map<Column, Value>) {
    && CreatedAt in values && UpdatedAt in values && Name in values && Platform in values && Type in values
    && Credentials in values && Extra in values && Concurrency in values && Priority in values
    && RateMultiplier in values && Status in values && AutoPauseOnExpired in values && Schedulable in values
    && QuotaDimension in values
    && Satisfies(schema.validName, values, Name) && Satisfies(schema.validPlatform, values, Platform)
    && Satisfies(schema.validType, values, Type) && Satisfies(schema.validStatus, values, Status)
    && Satisfies(schema.validSessionWindowStatus, values, SessionWindowStatus)
    && Satisfies(v => v == "global" || v == "spark", values, QuotaDimension)
  }

  /** Every column passes: field by field. */
  predicate EachPasses(schema: Schema, values: map<Column, Value>) {
    && Passes(schema, values, CreatedAt)
    && Passes(schema, values, UpdatedAt)
    && Passes(schema, values, Name)
    && Passes(schema, values, Platform)
    && Passes(schema, values, Type)
    && Passes(schema, values, Credentials)
    && Passes(schema, values, Extra)
    && Passes(schema, values, Concurrency)
    && Passes(schema, values, Priority)
    && Passes(schema, values, RateMultiplier)
    && Passes(schema, values, Status)
    && Passes(schema, values, AutoPauseOnExpired)
    && Passes(schema, values, Schedulable)
    && Passes(schema, values, SessionWindowStatus)
    && Passes(schema, values, QuotaDimension)
  }

  lemma CheckedFirst()
    ensures var cs := Checked();
            && |cs| == 15 && cs[0] == CreatedAt && cs[1] == UpdatedAt && cs[2] == Name && cs[3] == Platform
            && cs[4] == Type && cs[5] == Credentials && cs[6] == Extra && cs[7] == Concurrency
  {
  }

  lemma CheckedLast()
    ensures var cs := Checked();
            && |cs| == 15 && cs[8] == Priority && cs[9] == RateMultiplier && cs[10] == Status
            && cs[11] == AutoPauseOnExpired && cs[12] == Schedulable && cs[13] == SessionWindowStatus
            && cs[14] == QuotaDimension
  {
  }

  lemma CheckEach(schema: Schema, values: map<Column, Value>)
    ensures Check(schema, values).None? <==> EachPasses(schema, values)
  {
    hide Passes, Checked;
    CheckedFirst();
    CheckedLast();
    CheckExactly(schema, values, 0);
    if EachPasses(schema, values) {
      forall i | 0 <= i < |Checked()|
        ensures Passes(schema, values, Checked()[i])
      {
      }
    }
  }

  lemma PassesBare(schema: Schema, values: map<Column, Value>)
    ensures Passes(schema, values, CreatedAt) <==> CreatedAt in values
    ensures Passes(schema, values, UpdatedAt) <==> UpdatedAt in values
    ensures Passes(schema, values, Credentials) <==> Credentials in values
    ensures Passes(schema, values, Extra) <==> Extra in values
    ensures Passes(schema, values, Concurrency) <==> Concurrency in values
    ensures Passes(schema, values, Priority) <==> Priority in values
    ensures Passes(schema, values, RateMultiplier) <==> RateMultiplier in values
    ensures Passes(schema, values, AutoPauseOnExpired) <==> AutoPauseOnExpired in values
    ensures Passes(schema, values, Schedulable) <==> Schedulable in values
  {
  }

  lemma PassesText(schema: Schema, values: map<Column, Value>)
    ensures Passes(schema, values, Name) <==> Name in values && Satisfies(schema.validName, values, Name)
    ensures Passes(schema, values, Platform) <==>
            Platform in values && Satisfies(schema.validPlatform, values, Platform)
    ensures Passes(schema, values, Type) <==> Type in values && Satisfies(schema.validType, values, Type)
    ensures Passes(schema, values, Status) <==> Status in values && Satisfies(schema.validStatus, values, Status)
    ensures Passes(schema, values, SessionWindowStatus) <==>
            Satisfies(schema.validSessionWindowStatus, values, SessionWindowStatus)
    ensures Passes(schema, values, QuotaDimension) <==>
            QuotaDimension in values && Satisfies(v => v == "global" || v == "spark", values, QuotaDimension)
  {
  }

  /** check() succeeds exactly if the mutation has and holds what is demanded. */
  lemma CheckDemands(schema: Schema, values: map<Column, Value>)
    ensures Check(schema, values).None? <==> Demands(schema, values)
  {
    hide Check, Passes, Satisfies;
    CheckEach(schema, values);
    PassesBare(schema, values);
    PassesText(schema, values);
  }

  /** Every field that has a default is one that check() requires. */
  lemma DefaultedAreRequired(i: nat)
    requires i < |Defaulted()|
    ensures Required(Defaulted()[i]) && Defaulted()[i] in Checked()
  {
    var at := if i < 2 then i else if i < 10 then i + 3 else 14;
    assert Checked()[at] == Defaulted()[i];
  }

  /**
   A failed defaults() is never harmless: check() fails on what it leaves, whichever default functions are missing.
   */
  lemma DroppedErrorHarmless(schema: Schema, values: map<Column, Value>)
    ensures var (after, ok) := WithDefaults(schema, values); Check(schema, after).None? ==> ok
  {
    hide Defaulted, Checked, Passes;
    var (after, ok) := WithDefaults(schema, values);
    DefaultsComplete(schema, values, 0);
    if !ok {
      var i :| 0 <= i < |Defaulted()| && Defaulted()[i] !in after;
      DefaultedAreRequired(i);
      NotPassing(schema, after, i);
    }
  }

  lemma NotPassing(schema: Schema, values: map<Column, Value>, i: nat)
    requires i < |Defaulted()| && Defaulted()[i] !in values
    ensures Check(schema, values).Some?
  {
    hide Defaulted, Checked;
    DefaultedAreRequired(i);
    CheckExactly(schema, values, 0);
    assert !Passes(schema, values, Defaulted()[i]);
  }

  /** A builder's own Save validates: defaults() reports no error and check() then passes. */
  predicate SaveAccepts(schema: Schema, values: map<Column, Value>) {
    WithDefaults(schema, values).1 && Check(schema, WithDefaults(schema, values).0).None?
  }

  /**
   Bulk creation drops the error of defaults() and only checks: it accepts the builders that would save on their own.
   */
  predicate BulkAccepts(schema: Schema, builders: seq<map<Column, Value>>) {
    forall i :: 0 <= i < |builders| ==> Check(schema, WithDefaults(schema, builders[i]).0).None?
  }

  lemma BulkAcceptsLikeSave(schema: Schema, builders: seq<map<Column, Value>>)
    ensures BulkAccepts(schema, builders) <==> forall i :: 0 <= i < |builders| ==> SaveAccepts(schema, builders[i])
  {
    forall i | 0 <= i < |builders| {
      DroppedErrorHarmless(schema, builders[i]);
    }
  }

  // ---------- A created account, read back ----------

  lemma DefaultTyped(schema: Schema, c: Column)
    ensures Default(schema, c).Some? ==>
            Settable(c) && if IsDocument(c) then Default(schema, c).value.Json?
            else Fits(Default(schema, c).value, ScanKind(c))
  {
    match c
    case CreatedAt | UpdatedAt =>
    case Credentials | Extra =>
    case Concurrency | Priority =>
    case RateMultiplier =>
    case Status | QuotaDimension =>
    case AutoPauseOnExpired | Schedulable =>
    case _ =>
  }

  /** Defaults keep the mutation's fields well typed. */
  lemma DefaultsTyped(schema: Schema, values: map<Column, Value>)
    requires WellTyped(values)
    ensures WellTyped(WithDefaults(schema, values).0)
  {
    hide Default, Defaulted, ScanKind, Settable;
    var after := WithDefaults(schema, values).0;
    DefaultsOnlyAdd(schema, values, 0);
    forall c | c in after
      ensures Settable(c) && if IsDocument(c) then after[c].Json? else Fits(after[c], ScanKind(c))
    {
      DefaultTyped(schema, c);
    }
  }

  lemma RequiredHeld(schema: Schema, values: map<Column, Value>, c: Column)
    requires Check(schema, values).None? && c in Checked() && Required(c)
    ensures c in values && Valid(schema, c, values[c])
  {
    hide Checked;
    CheckExactly(schema, values, 0);
    var i :| 0 <= i < |Checked()| && Checked()[i] == c;
    assert Passes(schema, values, Checked()[i]);
  }

  /**
   The row of an account that Save accepts, read back in full, is the entity that createSpec returned, and in it every
   required field is set and valid.
   */
  lemma AcceptedReadsBack(schema: Schema, codec: Codec, m: Mutation, id: int)
    requires RoundTrips(codec) && WellTyped(m.values) && SaveAccepts(schema, m.values)
    ensures var m' := m.(values := WithDefaults(schema, m.values).0);
            var (e, err) := AssignAll(codec, Columns(), Fetched(codec, SpecOf(m'), id, Columns()), BLANK);
            && err.None? && e.values == NodeOf(m')[Id := Int(id)]
            && forall c :: c in Checked() && Required(c) ==> c in e.values && Valid(schema, c, e.values[c])
  {
    hide WithDefaults, AssignAll, SpecOf, Checked, Check, Columns, Valid, WellTyped, NodeOf;
    var m' := m.(values := WithDefaults(schema, m.values).0);
    DefaultsTyped(schema, m.values);
    ReadBackWhole(codec, m', id);
    forall c | c in Checked() && Required(c)
      ensures c in NodeOf(m')[Id := Int(id)] && Valid(schema, c, NodeOf(m')[Id := Int(id)][c])
    {
      RequiredHeld(schema, m'.values, c);
      CheckedShown(m', c);
    }
  }

  /** The fields that check() looks at are taken over by createSpec, not overwritten by an edge or the ID. */
  lemma CheckedShown(m: Mutation, c: Column)
    requires WellTyped(m.values) && c in Checked() && c in m.values
    ensures c != Id && c in NodeOf(m) && NodeOf(m)[c] == m.values[c]
  {
    hide SpecColumns, NodeValues, LastOf, SpecFields, Checked, ScanKind, IsDocument, Fits;
    SpecHolds(m.values, c);
  }
}
