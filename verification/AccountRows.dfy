/**
 Accounts and their database rows: the Go type each column is scanned into, the assignment of scanned cells to an
 entity, and the specification from which a new row is inserted.
 */
module AccountRows {
  import opened Prelude

  // ---------- Columns and values ----------

  /** The columns of "accounts"; any other name belongs to a value that was selected dynamically. */
  datatype Column =
    | Id | CreatedAt | UpdatedAt | DeletedAt | Name | Notes | Platform | Type | Credentials | Extra | ProxyID
    | ProxyFallbackOriginID | Concurrency | LoadFactor | Priority | RateMultiplier | Status | ErrorMessage | LastUsedAt
    | ExpiresAt | AutoPauseOnExpired | Schedulable | RateLimitedAt | RateLimitResetAt | OverloadUntil
    | TempUnschedulableUntil | TempUnschedulableReason | SessionWindowStart | SessionWindowEnd | SessionWindowStatus
    | ParentAccountID | QuotaDimension
    | Other(name: string)

  function Columns(): seq<Column> {
    [
    Id, CreatedAt, UpdatedAt, DeletedAt, Name, Notes, Platform, Type, Credentials, Extra, ProxyID,
    ProxyFallbackOriginID, Concurrency, LoadFactor, Priority, RateMultiplier, Status, ErrorMessage, LastUsedAt,
    ExpiresAt, AutoPauseOnExpired, Schedulable, RateLimitedAt, RateLimitResetAt, OverloadUntil,
    TempUnschedulableUntil, TempUnschedulableReason, SessionWindowStart, SessionWindowEnd, SessionWindowStatus,
    ParentAccountID, QuotaDimension]
  }

  type Bytes = seq<bv8>

  /** A decoded JSON object; the Go map may be nil. */
  type Document = Option<map<string, string>>

  /** JSON encoding and decoding. Decoding may fail. */
  datatype Codec = Codec(encode: Document -> Bytes, decode: Bytes -> Option<Document>)

  /** The assumption about documents: what was encoded is not empty and decodes to itself. */
  ghost predicate RoundTrips(codec: Codec) {
    forall d :: codec.encode(d) != [] && codec.decode(codec.encode(d)) == Some(d)
  }

  datatype Value = Int(number: int) | Float(decimal: real) | Text(text: string) | Time(time: int) | Flag(flag: bool)
                 | Raw(bytes: Bytes) | Json(document: Document)

  /** The destination types of a scan: *[]byte, the sql.Null types, and sql.UnknownType. */
  datatype Kind = ByteSlice | NullBool | NullFloat64 | NullInt64 | NullString | NullTime | UnknownType

  predicate Fits(v: Value, kind: Kind) {
    match kind
    case ByteSlice => v.Raw?
    case NullBool => v.Flag?
    case NullFloat64 => v.Float?
    case NullInt64 => v.Int?
    case NullString => v.Text?
    case NullTime => v.Time?
    case UnknownType => true
  }

  /** A scanned cell; SQL NULL has no content. */
  datatype Cell = Cell(kind: Kind, content: Option<Value>)

  // ---------- scanValues ----------

  function ScanKind(c: Column): Kind {
    match c
    case Credentials | Extra => ByteSlice
    case AutoPauseOnExpired | Schedulable => NullBool
    case RateMultiplier => NullFloat64
    case Id | ProxyID | ProxyFallbackOriginID | Concurrency | LoadFactor | Priority | ParentAccountID => NullInt64
    case Name | Notes | Platform | Type | Status | ErrorMessage | TempUnschedulableReason | SessionWindowStatus |
        QuotaDimension => NullString
    case CreatedAt | UpdatedAt | DeletedAt | LastUsedAt | ExpiresAt | RateLimitedAt | RateLimitResetAt | OverloadUntil
       | TempUnschedulableUntil | SessionWindowStart | SessionWindowEnd => NullTime
    case Other(_) => UnknownType
  }

  method ScanValues(columns: seq<Column>) returns (values: array<Kind>)
    ensures fresh(values) && values.Length == |columns|
    ensures forall i :: 0 <= i < |columns| ==> values[i] == ScanKind(columns[i])
  {
    values := new Kind[|columns|](_ => UnknownType);
    for i := 0 to |columns|
      invariant forall j :: 0 <= j < i ==> values[j] == ScanKind(columns[j])
    {
      values[i] := ScanKind(columns[i]);
    }
  }

  // ---------- assignValues ----------

  datatype AssignError = LengthMismatch | UnexpectedType(column: Column) | Unmarshal(column: Column)

  /** The type that assignValues demands of a column's cell. */
  function AssignKind(c: Column): Kind
    requires !c.Other?
  {
    match c
    case Id => NullInt64
    case CreatedAt => NullTime
    case UpdatedAt => NullTime
    case DeletedAt => NullTime
    case Name => NullString
    case Notes => NullString
    case Platform => NullString
    case Type => NullString
    case Credentials => ByteSlice
    case Extra => ByteSlice
    case ProxyID => NullInt64
    case ProxyFallbackOriginID => NullInt64
    case Concurrency => NullInt64
    case LoadFactor => NullInt64
    case Priority => NullInt64
    case RateMultiplier => NullFloat64
    case Status => NullString
    case ErrorMessage => NullString
    case LastUsedAt => NullTime
    case ExpiresAt => NullTime
    case AutoPauseOnExpired => NullBool
    case Schedulable => NullBool
    case RateLimitedAt => NullTime
    case RateLimitResetAt => NullTime
    case OverloadUntil => NullTime
    case TempUnschedulableUntil => NullTime
    case TempUnschedulableReason => NullString
    case SessionWindowStart => NullTime
    case SessionWindowEnd => NullTime
    case SessionWindowStatus => NullString
    case ParentAccountID => NullInt64
    case QuotaDimension => NullString
  }

  predicate IsDocument(c: Column) {
    c == Credentials || c == Extra
  }

  /** A field that is absent has its zero value: nil where the Go field is a pointer. */
  datatype Fields = Fields(values: map<Column, Value>, selected: map<string, Cell>)

  const BLANK := Fields(map[], map[])

  function Set(e: Fields, c: Column, v: Value): Fields {
    e.(values := e.values[c := v])
  }

  /** Whether the cell is one whose bytes must decode. */
  predicate Encoded(cell: Cell) {
    cell.content.Some? && cell.content.value.Raw? && cell.content.value.bytes != []
  }

  function Refused(codec: Codec, c: Column, cell: Cell): Option<AssignError> {
    if c.Other? then None
    else if cell.kind != AssignKind(c) then Some(UnexpectedType(c))
    else if IsDocument(c) && Encoded(cell) && codec.decode(cell.content.value.bytes).None? then Some(Unmarshal(c))
    else None
  }

  /** json.Unmarshal into a map that may hold keys already: they stay unless overwritten, and null empties the map. */
  function Unmarshalled(e: Fields, c: Column, d: Document): Document {
    if d.None? || c !in e.values || !e.values[c].Json? || e.values[c].document.None? then d
    else Some(e.values[c].document.value + d.value)
  }

  /** One case of assignValues, on a cell it accepts. Only the ID ignores whether the cell is NULL. */
  function Assign(codec: Codec, c: Column, cell: Cell, e: Fields): Fields
    requires Refused(codec, c, cell).None?
  {
    if c.Other? then e.(selected := e.selected[c.name := cell])
    else if IsDocument(c) then
      if Encoded(cell) then Set(e, c, Json(Unmarshalled(e, c, codec.decode(cell.content.value.bytes).value))) else e
    else if c == Id && cell.content.None? then Set(e, Id, Int(0))
    else if cell.content.None? then e
    else Set(e, c, cell.content.value)
  }

  /** The first `k` columns assigned, or the first error among them. */
  function AssignFirst(codec: Codec, columns: seq<Column>, cells: seq<Cell>, k: nat,
          e: Fields): (r: (Fields, Option<AssignError>))
    requires k <= |columns| <= |cells|
  {
    if k == 0 then (e, None)
    else
      var (e', err) := AssignFirst(codec, columns, cells, k - 1, e);
      if err.Some? then (e', err)
      else
        var err := Refused(codec, columns[k - 1], cells[k - 1]);
        if err.Some? then (e', err) else (Assign(codec, columns[k - 1], cells[k - 1], e'), None)
  }

  function AssignAll(codec: Codec, columns: seq<Column>, cells: seq<Cell>, e: Fields): (Fields, Option<AssignError>) {
    if |cells| < |columns| then (e, Some(LengthMismatch)) else AssignFirst(codec, columns, cells, |columns|, e)
  }

  /** The entity as the row scanner sees it. */
  class Record {
    var fields: Fields

    constructor ()
      ensures fields == BLANK
    {
      fields := BLANK;
    }

    method AssignValues(codec: Codec, columns: seq<Column>, cells: seq<Cell>) returns (err: Option<AssignError>)
      modifies this
      ensures (fields, err) == AssignAll(codec, columns, cells, old(fields))
    {
      if |cells| < |columns| {
        return Some(LengthMismatch);
      }
      for i := 0 to |columns|
        invariant (fields, None) == AssignFirst(codec, columns, cells, i, old(fields))
      {
        ghost var before := fields;
        err := Refused(codec, columns[i], cells[i]);
        if err.Some? {
          FirstErrorStays(codec, columns, cells, i + 1, |columns|, old(fields));
          return;
        }
        fields := Assign(codec, columns[i], cells[i], fields);
      }
      err := None;
    }
  }

  lemma {:induction false} FirstErrorStays(codec: Codec, columns: seq<Column>, cells: seq<Cell>, k: nat, n: nat,
          e: Fields)
    requires k <= n <= |columns| <= |cells| && AssignFirst(codec, columns, cells, k, e).1.Some?
    ensures AssignFirst(codec, columns, cells, n, e) == AssignFirst(codec, columns, cells, k, e)
  {
    if k < n {
      FirstErrorStays(codec, columns, cells, k, n - 1, e);
    }
  }

  /** Assignment succeeds exactly on enough cells of the right types whose documents decode. */
  lemma {:induction false} AssignExactly(codec: Codec, columns: seq<Column>, cells: seq<Cell>, k: nat, e: Fields)
    requires k <= |columns| <= |cells|
    ensures AssignFirst(codec, columns, cells, k, e).1.None? <==>
            forall i :: 0 <= i < k ==> Refused(codec, columns[i], cells[i]).None?
  {
    if k > 0 {
      AssignExactly(codec, columns, cells, k - 1, e);
    }
  }

  ghost predicate Scanned(columns: seq<Column>, cells: seq<Cell>) {
    |cells| == |columns| && forall i :: 0 <= i < |columns| ==> cells[i].kind == ScanKind(columns[i])
  }

  ghost predicate Decodes(codec: Codec, columns: seq<Column>, cells: seq<Cell>)
    requires |cells| == |columns|
  {
    forall i :: 0 <= i < |columns| && IsDocument(columns[i]) && Encoded(cells[i]) ==>
        codec.decode(cells[i].content.value.bytes).Some?
  }

  lemma KindsAgree(c: Column)
    requires !c.Other?
    ensures ScanKind(c) == AssignKind(c) != UnknownType
    ensures ScanKind(c) == ByteSlice <==> IsDocument(c)
  {
  }

  lemma {:induction false} OnlyUnmarshal(codec: Codec, columns: seq<Column>, cells: seq<Cell>, k: nat, e: Fields)
    requires Scanned(columns, cells) && k <= |columns|
    ensures var err := AssignFirst(codec, columns, cells, k, e).1; err.Some? ==> err.value.Unmarshal?
  {
    if k > 0 {
      OnlyUnmarshal(codec, columns, cells, k - 1, e);
      var c := columns[k - 1];
      if !c.Other? {
        KindsAgree(c);
      }
    }
  }

  /**
   Cells typed by scanValues never meet a length or type error, whatever the column list: only a document can fail to
   decode.
   */
  lemma DecodeAgrees(codec: Codec, columns: seq<Column>, cells: seq<Cell>, e: Fields)
    requires Scanned(columns, cells)
    ensures var err := AssignAll(codec, columns, cells, e).1;
            && (err.Some? ==> err.value.Unmarshal?)
            && (err.None? <==> Decodes(codec, columns, cells))
  {
    AssignExactly(codec, columns, cells, |columns|, e);
    OnlyUnmarshal(codec, columns, cells, |columns|, e);
    forall i | 0 <= i < |columns|
      ensures Refused(codec, columns[i], cells[i]).None? <==>
              (IsDocument(columns[i]) && Encoded(cells[i]) ==> codec.decode(cells[i].content.value.bytes).Some?)
    {
      if !columns[i].Other? {
        KindsAgree(columns[i]);
      }
    }
  }

  // ---------- createSpec ----------

  /** The fields createSpec copies from the mutation, in its order; foreign keys come from the edges. */
  function SpecColumns(): seq<Column> {
    [
    CreatedAt, UpdatedAt, DeletedAt, Name, Notes, Platform, Type, Credentials, Extra, ProxyFallbackOriginID,
    Concurrency, LoadFactor, Priority, RateMultiplier, Status, ErrorMessage, LastUsedAt, ExpiresAt,
    AutoPauseOnExpired, Schedulable, RateLimitedAt, RateLimitResetAt, OverloadUntil, TempUnschedulableUntil,
    TempUnschedulableReason, SessionWindowStart, SessionWindowEnd, SessionWindowStatus, QuotaDimension]
  }

  predicate Settable(c: Column) {
    c != Id && c != ProxyID && c != ParentAccountID && !c.Other?
  }

  /** The static Go types of the mutation's fields. */
  ghost predicate WellTyped(values: map<Column, Value>) {
    forall c :: c in values ==> Settable(c) && if IsDocument(c) then values[c].Json? else Fits(values[c], ScanKind(c))
  }

  /** What a builder's mutation holds: the fields that were set and the two M2O edges. */
  datatype Mutation = Mutation(values: map<Column, Value>, proxy: Option<int>, parent: Option<int>)

  /** Fields in the order they were set, and the foreign keys of the M2O edges. */
  datatype CreateSpec = CreateSpec(fields: seq<(Column, Value)>, edges: map<Column, int>)

  function SpecFields(values: map<Column, Value>, columns: seq<Column>): seq<(Column, Value)> {
    if columns == [] then []
    else
      var c := columns[|columns| - 1];
      SpecFields(values, columns[..|columns| - 1]) + if c in values then [(c, values[c])] else []
  }

  function EdgeKey(c: Column, edge: Option<int>): map<Column, int> {
    if edge.Some? then map[c := edge.value] else map[]
  }

  function SpecOf(m: Mutation): CreateSpec {
    CreateSpec(SpecFields(m.values, SpecColumns()), EdgeKey(ProxyID, m.proxy) + EdgeKey(ParentAccountID, m.parent))
  }

  function NodeValues(values: map<Column, Value>, columns: seq<Column>): map<Column, Value> {
    if columns == [] then map[]
    else
      var c := columns[|columns| - 1];
      var node := NodeValues(values, columns[..|columns| - 1]);
      if c in values then node[c := values[c]] else node
  }

  function WithKey(node: map<Column, Value>, c: Column, edge: Option<int>): map<Column, Value> {
    if edge.Some? then node[c := Int(edge.value)] else node
  }

  /** The entity that createSpec returns; its ID is still zero. */
  function NodeOf(m: Mutation): map<Column, Value> {
    WithKey(WithKey(NodeValues(m.values, SpecColumns()), ProxyID, m.proxy), ParentAccountID, m.parent)
  }

  // ---------- The inserted row, read back ----------

  /** What the insert writes: documents are encoded, an absent column is NULL. */
  function Stored(codec: Codec, v: Value): Value {
    if v.Json? then Raw(codec.encode(v.document)) else v
  }

  function LastOf(fields: seq<(Column, Value)>, c: Column): Option<Value> {
    if fields == [] then None
    else if fields[|fields| - 1].0 == c then Some(fields[|fields| - 1].1)
    else LastOf(fields[..|fields| - 1], c)
  }

  /** The content of a column of the row inserted from `spec` under the key `id`. */
  function Inserted(codec: Codec, spec: CreateSpec, id: int, c: Column): Option<Value> {
    if c == Id then Some(Int(id))
    else if c in spec.edges then Some(Int(spec.edges[c]))
    else
      var v := LastOf(spec.fields, c);
      if v.Some? then Some(Stored(codec, v.value)) else None
  }

  function Fetched(codec: Codec, spec: CreateSpec, id: int, columns: seq<Column>): (cells: seq<Cell>)
    ensures |cells| == |columns|
  {
    seq(|columns|, i requires 0 <= i < |columns| => Cell(ScanKind(columns[i]), Inserted(codec, spec, id, columns[i])))
  }

  lemma LastOfMore(fields: seq<(Column, Value)>, f: (Column, Value), c: Column)
    ensures LastOf(fields + [f], c) == if f.0 == c then Some(f.1) else LastOf(fields, c)
  {
    assert (fields + [f])[..|fields|] == fields;
  }

  lemma {:induction false} SpecFieldsHold(values: map<Column, Value>, columns: seq<Column>, c: Column)
    ensures LastOf(SpecFields(values, columns), c) == if c in columns && c in values then Some(values[c]) else None
  {
    if columns != [] {
      hide LastOf;
      var last := |columns| - 1;
      SpecFieldsHold(values, columns[..last], c);
      assert columns == columns[..last] + [columns[last]];
      var init := SpecFields(values, columns[..last]);
      if columns[last] in values {
        LastOfMore(init, (columns[last], values[columns[last]]), c);
      } else {
        assert init + [] == init;
      }
    }
  }

  lemma {:induction false} NodeValuesHold(values: map<Column, Value>, columns: seq<Column>, c: Column)
    ensures c in NodeValues(values, columns) <==> c in columns && c in values
    ensures c in NodeValues(values, columns) ==> NodeValues(values, columns)[c] == values[c]
  {
    if columns != [] {
      var last := |columns| - 1;
      NodeValuesHold(values, columns[..last], c);
      assert columns == columns[..last] + [columns[last]];
    }
  }

  /** The entity a column list shows of an inserted account. */
  function Shown(m: Mutation, id: int, c: Column): Option<Value> {
    if c == Id then Some(Int(id)) else if c in NodeOf(m) then Some(NodeOf(m)[c]) else None
  }

  /** createSpec leaves out no field that a mutation can hold. */
  lemma AllSettable(c: Column)
    requires Settable(c)
    ensures c in SpecColumns()
  {
  }

  lemma SpecHolds(values: map<Column, Value>, c: Column)
    requires WellTyped(values)
    ensures LastOf(SpecFields(values, SpecColumns()), c) == if c in values then Some(values[c]) else None
    ensures c in NodeValues(values, SpecColumns()) <==> c in values
    ensures c in values ==> NodeValues(values, SpecColumns())[c] == values[c]
  {
    hide SpecFields, NodeValues, LastOf, SpecColumns;
    SpecFieldsHold(values, SpecColumns(), c);
    NodeValuesHold(values, SpecColumns(), c);
    if c in values {
      AllSettable(c);
    }
  }

  lemma FieldTyped(m: Mutation, c: Column)
    requires WellTyped(m.values) && c in m.values
    ensures Settable(c) && if IsDocument(c) then m.values[c].Json? else Fits(m.values[c], ScanKind(c))
  {
    hide ScanKind, IsDocument, Fits;
  }

  lemma ShownTyped(m: Mutation, id: int, c: Column)
    requires WellTyped(m.values) && Shown(m, id, c).Some?
    ensures if IsDocument(c) then Shown(m, id, c).value.Json? else Fits(Shown(m, id, c).value, ScanKind(c))
  {
    hide NodeValues, SpecColumns, WellTyped, LastOf, SpecFields;
    SpecHolds(m.values, c);
    if c in m.values {
      FieldTyped(m, c);
    }
  }

  /** The M2O edge that a foreign-key column stands for. */
  function EdgeOf(m: Mutation, c: Column): Option<int> {
    if c == ProxyID then m.proxy else if c == ParentAccountID then m.parent else None
  }

  lemma SpecAt(m: Mutation, c: Column)
    ensures c in SpecOf(m).edges <==> EdgeOf(m, c).Some?
    ensures c in SpecOf(m).edges ==> SpecOf(m).edges[c] == EdgeOf(m, c).value
  {
    hide SpecFields, SpecColumns;
  }

  lemma NodeAt(m: Mutation, c: Column)
    requires WellTyped(m.values)
    ensures var v := if c in NodeOf(m) then Some(NodeOf(m)[c]) else None;
            v == if EdgeOf(m, c).Some? then Some(Int(EdgeOf(m, c).value))
                 else if c in m.values then Some(m.values[c]) else None
  {
    hide SpecFields, NodeValues, LastOf, SpecColumns, WellTyped;
    SpecHolds(m.values, c);
  }

  lemma InsertedStored(codec: Codec, m: Mutation, id: int, c: Column)
    requires WellTyped(m.values)
    ensures Inserted(codec, SpecOf(m), id, c) == if Shown(m, id, c).Some?
            then Some(Stored(codec, Shown(m, id, c).value)) else None
  {
    assert SpecOf(m).fields == SpecFields(m.values, SpecColumns());
    hide SpecOf, SpecFields, NodeOf, LastOf, SpecColumns, WellTyped, EdgeOf, NodeValues;
    SpecHolds(m.values, c);
    SpecAt(m, c);
    NodeAt(m, c);
  }

  /** A column of the inserted row holds what the entity shows. */
  lemma InsertedShown(codec: Codec, m: Mutation, id: int, c: Column)
    requires WellTyped(m.values)
    ensures Inserted(codec, SpecOf(m), id, c) == if Shown(m, id, c).Some?
            then Some(Stored(codec, Shown(m, id, c).value)) else None
    ensures Shown(m, id, c).Some? ==>
            if IsDocument(c) then Shown(m, id, c).value.Json? else Fits(Shown(m, id, c).value, ScanKind(c))
  {
    hide Inserted, SpecOf, Shown, WellTyped, ScanKind, Fits, IsDocument;
    InsertedStored(codec, m, id, c);
    if Shown(m, id, c).Some? {
      ShownTyped(m, id, c);
    }
  }

  /** One column, written and read back. */
  lemma ReadBackColumn(codec: Codec, m: Mutation, id: int, c: Column, e: Fields)
    requires RoundTrips(codec) && WellTyped(m.values) && !c.Other?
    requires c in e.values ==> Shown(m, id, c) == Some(e.values[c])
    ensures var cell := Cell(ScanKind(c), Inserted(codec, SpecOf(m), id, c));
            && Refused(codec, c, cell).None?
            && Assign(codec, c, cell, e) == if Shown(m, id, c).Some? then Set(e, c, Shown(m, id, c).value) else e
  {
    hide Inserted, SpecOf, NodeOf, AssignKind, ScanKind, WellTyped;
    KindsAgree(c);
    InsertedShown(codec, m, id, c);
    if Shown(m, id, c).Some? && IsDocument(c) {
      var d := Shown(m, id, c).value.document;
      assert codec.decode(codec.encode(d)) == Some(d);
      assert d.Some? ==> d.value + d.value == d.value;
    }
  }

  lemma {:induction false} ReadBackPrefix(codec: Codec, m: Mutation, id: int, columns: seq<Column>, k: nat)
    requires RoundTrips(codec) && WellTyped(m.values) && k <= |columns|
    requires forall i :: 0 <= i < |columns| ==> !columns[i].Other?
    ensures var (e, err) := AssignFirst(codec, columns, Fetched(codec, SpecOf(m), id, columns), k, BLANK);
            && err.None? && e.selected == map[]
            && forall c ::
                (if c in e.values then Some(e.values[c]) else None) == if c in columns[..k] then Shown(m, id, c)
                else None
  {
    hide Inserted, ScanKind, Shown, Assign, Refused, SpecOf;
    if k > 0 {
      ReadBackPrefix(codec, m, id, columns, k - 1);
      var e := AssignFirst(codec, columns, Fetched(codec, SpecOf(m), id, columns), k - 1, BLANK).0;
      ReadBackColumn(codec, m, id, columns[k - 1], e);
      assert columns[..k] == columns[..k - 1] + [columns[k - 1]];
    }
  }

  /**
   The row inserted from createSpec, read through any list of account columns, gives the entity that createSpec
   returned, cut to those columns and carrying its new ID.
   */
  lemma ReadBack(codec: Codec, m: Mutation, id: int, columns: seq<Column>)
    requires RoundTrips(codec) && WellTyped(m.values)
    requires forall i :: 0 <= i < |columns| ==> !columns[i].Other?
    ensures var (e, err) := AssignAll(codec, columns, Fetched(codec, SpecOf(m), id, columns), BLANK);
            && err.None? && e.selected == map[]
            && e.values == map c | c in NodeOf(m)[Id := Int(id)].Keys && c in columns :: NodeOf(m)[Id := Int(id)][c]
  {
    hide AssignFirst, Inserted, SpecOf, NodeOf, WellTyped, RoundTrips;
    ReadBackPrefix(codec, m, id, columns, |columns|);
    assert columns[..|columns|] == columns;
    var node := NodeOf(m)[Id := Int(id)];
    var (e, _) := AssignAll(codec, columns, Fetched(codec, SpecOf(m), id, columns), BLANK);
    forall c
      ensures c in e.values <==> c in node && c in columns
      ensures c in e.values ==> e.values[c] == node[c]
    {
      assert (if c in e.values then Some(e.values[c]) else None) == if c in columns then Shown(m, id, c) else None;
    }
    assert e.values == map c | c in node.Keys && c in columns :: node[c];
  }

  /** With no projection nothing is cut off. */
  lemma ReadBackWhole(codec: Codec, m: Mutation, id: int)
    requires RoundTrips(codec) && WellTyped(m.values)
    ensures AssignAll(codec, Columns(), Fetched(codec, SpecOf(m), id, Columns()), BLANK) ==
            (Fields(NodeOf(m)[Id := Int(id)], map[]), None)
  {
    hide AssignAll, NodeOf, SpecOf, Columns, SpecColumns;
    var node := NodeOf(m)[Id := Int(id)];
    NoOther();
    ReadBack(codec, m, id, Columns());
    forall c | c in node
      ensures c in Columns()
    {
      NodeColumns(m, c);
      AllColumns(c);
    }
    assert node == map c | c in node.Keys && c in Columns() :: node[c];
  }

  lemma NodeColumns(m: Mutation, c: Column)
    requires WellTyped(m.values) && c in NodeOf(m).Keys + {Id}
    ensures !c.Other?
  {
    hide NodeValues, SpecColumns;
    SpecHolds(m.values, c);
  }

  lemma NoOther()
    ensures forall i :: 0 <= i < |Columns()| ==> !Columns()[i].Other?
  {
  }

  lemma AllColumns(c: Column)
    requires !c.Other?
    ensures c in Columns()
  {
  }
}
