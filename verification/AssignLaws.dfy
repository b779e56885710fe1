/**
 What assigning a row to an entity does, cell by cell and error by error.
 */
module AssignLaws {
  import opened Prelude
  import opened AccountRows

  // ---------- Errors ----------

  /** The bytes of a document are there and not empty. */
  ghost predicate HasBytes(cell: Cell) {
    cell.content.Some? && cell.content.value.Raw? && |cell.content.value.bytes| > 0
  }

  /** A cell that a column takes: of the type that scanValues gives the column, and a document must decode. */
  ghost predicate Takes(codec: Codec, c: Column, cell: Cell) {
    || c.Other?
    || (cell.kind == ScanKind(c) &&
        ((c == Credentials || c == Extra) && HasBytes(cell) ==> codec.decode(cell.content.value.bytes).Some?))
  }

  lemma RefusedExactly(codec: Codec, c: Column, cell: Cell)
    ensures Refused(codec, c, cell) ==
            if Takes(codec, c, cell) then None
            else if cell.kind != ScanKind(c) then Some(UnexpectedType(c)) else Some(Unmarshal(c))
  {
    hide ScanKind, AssignKind;
    if !c.Other? {
      KindsAgree(c);
    }
  }

  /**
   A row is assigned unless it is too short or some cell is not taken. The error is about the first such cell, and the
   columns before it have been assigned.
   */
  lemma {:induction false} ErrorExactly(codec: Codec, columns: seq<Column>, cells: seq<Cell>, k: nat, e: Fields)
      returns (i: nat)
    requires k <= |columns| <= |cells|
    ensures i <= k && forall j :: 0 <= j < i ==> Takes(codec, columns[j], cells[j])
    ensures AssignFirst(codec, columns, cells, k, e).0 == AssignFirst(codec, columns, cells, i, e).0
    ensures AssignFirst(codec, columns, cells, i, e).1.None?
    ensures var err := AssignFirst(codec, columns, cells, k, e).1;
            if i == k then err.None?
            else
              && !Takes(codec, columns[i], cells[i])
              && err == if cells[i].kind != ScanKind(columns[i]) then Some(UnexpectedType(columns[i]))
                  else Some(Unmarshal(columns[i]))
  {
    hide Takes, Refused, ScanKind, Assign;
    if k == 0 {
      i := 0;
    } else {
      i := ErrorExactly(codec, columns, cells, k - 1, e);
      if i == k - 1 {
        RefusedExactly(codec, columns[i], cells[i]);
        if Takes(codec, columns[i], cells[i]) {
          i := k;
        }
      }
    }
  }

  lemma LengthExactly(codec: Codec, columns: seq<Column>, cells: seq<Cell>, e: Fields)
    ensures AssignAll(codec, columns, cells, e).1 == Some(LengthMismatch) <==> |cells| < |columns|
    ensures |cells| < |columns| ==> AssignAll(codec, columns, cells, e).0 == e
  {
    hide AssignFirst;
    if |columns| <= |cells| {
      var _ := ErrorExactly(codec, columns, cells, |columns|, e);
    }
  }

  // ---------- Values ----------

  function ValueAt(e: Fields, c: Column): Option<Value> {
    if c in e.values then Some(e.values[c]) else None
  }

  /** The document that a column holds already; null and no document have no keys. */
  function KeysAt(e: Fields, c: Column): map<string, string> {
    match ValueAt(e, c)
    case Some(Json(Some(keys))) => keys
    case _ => map[]
  }

  /** A decoded null empties the column; the keys of a decoded object are added to those it holds, or replace them. */
  ghost predicate Merged(before: map<string, string>, read: Document, after: Option<Value>) {
    match after
    case Some(Json(None)) => read.None?
    case Some(Json(Some(keys))) =>
      && read.Some? && keys.Keys == before.Keys + read.value.Keys
      && forall x :: x in keys ==> keys[x] == if x in read.value then read.value[x] else before[x]
    case _ => false
  }

  /** The value of a column that takes a cell: only the ID becomes zero by NULL. */
  ghost predicate Becomes(codec: Codec, c: Column, cell: Cell, e: Fields, e': Fields)
    requires !c.Other? && Takes(codec, c, cell)
  {
    if c == Credentials || c == Extra then
      if HasBytes(cell) then Merged(KeysAt(e, c), codec.decode(cell.content.value.bytes).value, ValueAt(e', c))
      else ValueAt(e', c) == ValueAt(e, c)
    else if cell.content.Some? then ValueAt(e', c) == cell.content
    else ValueAt(e', c) == if c == Id then Some(Int(0)) else ValueAt(e, c)
  }

  /** What one cell changes: its own column, or the selected value of a column that is none of the entity's. */
  ghost predicate Changes(codec: Codec, c: Column, cell: Cell, e: Fields, e': Fields)
    requires Takes(codec, c, cell)
  {
    if c.Other? then e' == Fields(e.values, e.selected[c.name := cell])
    else
      && e'.selected == e.selected && (forall d :: d != c ==> ValueAt(e', d) == ValueAt(e, d))
      && Becomes(codec, c, cell, e, e')
  }

  lemma AssignChanges(codec: Codec, c: Column, cell: Cell, e: Fields)
    requires Takes(codec, c, cell) && Refused(codec, c, cell).None?
    ensures Changes(codec, c, cell, e, Assign(codec, c, cell, e))
  {
    hide Takes, Refused, Becomes;
    if !c.Other? {
      AssignFrames(codec, c, cell, e);
      AssignBecomes(codec, c, cell, e);
    }
  }

  lemma AssignFrames(codec: Codec, c: Column, cell: Cell, e: Fields)
    requires Refused(codec, c, cell).None? && !c.Other?
    ensures Assign(codec, c, cell, e).selected == e.selected
    ensures forall d: Column :: d != c ==> ValueAt(Assign(codec, c, cell, e), d) == ValueAt(e, d)
  {
    hide Refused, Unmarshalled, Encoded;
  }

  lemma AssignBecomes(codec: Codec, c: Column, cell: Cell, e: Fields)
    requires Takes(codec, c, cell) && Refused(codec, c, cell).None? && !c.Other?
    ensures Becomes(codec, c, cell, e, Assign(codec, c, cell, e))
  {
    hide Takes, Refused, Merged, Unmarshalled;
    if (c == Credentials || c == Extra) && HasBytes(cell) {
      DocumentMerges(codec, c, cell, e);
    }
  }

  lemma DocumentMerges(codec: Codec, c: Column, cell: Cell, e: Fields)
    requires Takes(codec, c, cell) && Refused(codec, c, cell).None?
    requires (c == Credentials || c == Extra) && HasBytes(cell)
    ensures codec.decode(cell.content.value.bytes).Some?
    ensures Merged(KeysAt(e, c), codec.decode(cell.content.value.bytes).value,
                ValueAt(Assign(codec, c, cell, e), c))
  {
    hide ScanKind, AssignKind;
  }

  /** Assigning a row is: cell after cell, each changing what its column says. */
  lemma CellAfterCell(codec: Codec, columns: seq<Column>, cells: seq<Cell>, k: nat, e: Fields)
    requires k < |columns| <= |cells| && AssignFirst(codec, columns, cells, k + 1, e).1.None?
    ensures AssignFirst(codec, columns, cells, 0, e) == (e, None) && Takes(codec, columns[k], cells[k])
    ensures Changes(codec, columns[k], cells[k], AssignFirst(codec, columns, cells, k, e).0,
                AssignFirst(codec, columns, cells, k + 1, e).0)
  {
    hide Takes, Changes, Refused, Assign, ScanKind;
    RefusedExactly(codec, columns[k], cells[k]);
    AssignChanges(codec, columns[k], cells[k], AssignFirst(codec, columns, cells, k, e).0);
  }

  ghost predicate Once(columns: seq<Column>) {
    forall i, j :: 0 <= i < j < |columns| ==> columns[i] != columns[j]
  }

  lemma {:induction false} UntouchedPrefix(codec: Codec, columns: seq<Column>, cells: seq<Cell>, k: nat, e: Fields,
          c: Column)
    requires k <= |columns| <= |cells| && AssignFirst(codec, columns, cells, k, e).1.None?
    requires !c.Other? && forall i :: 0 <= i < k ==> columns[i] != c
    ensures ValueAt(AssignFirst(codec, columns, cells, k, e).0, c) == ValueAt(e, c)
  {
    hide Takes, Becomes;
    if k > 0 {
      UntouchedPrefix(codec, columns, cells, k - 1, e, c);
      CellAfterCell(codec, columns, cells, k - 1, e);
    }
  }

  lemma BecomesOnly(codec: Codec, c: Column, cell: Cell, e: Fields, e': Fields, d: Fields, d': Fields)
    requires !c.Other? && Takes(codec, c, cell) && Becomes(codec, c, cell, d, d')
    requires ValueAt(d, c) == ValueAt(e, c) && ValueAt(d', c) == ValueAt(e', c)
    ensures Becomes(codec, c, cell, e, e')
  {
    hide Takes, Merged, ValueAt;
  }

  /** In the end a column that is read once has become what its own cell says, whatever else was read. */
  lemma {:induction false} ShownPrefix(codec: Codec, columns: seq<Column>, cells: seq<Cell>, k: nat, e: Fields, i: nat)
    requires i < k <= |columns| <= |cells| && AssignFirst(codec, columns, cells, k, e).1.None?
    requires Once(columns) && !columns[i].Other?
    ensures Takes(codec, columns[i], cells[i])
    ensures Becomes(codec, columns[i], cells[i], e, AssignFirst(codec, columns, cells, k, e).0)
  {
    hide Takes, Becomes, Assign, Refused;
    var c, d := columns[i], AssignFirst(codec, columns, cells, k - 1, e).0;
    CellAfterCell(codec, columns, cells, k - 1, e);
    var d' := AssignFirst(codec, columns, cells, k, e).0;
    if i == k - 1 {
      UntouchedPrefix(codec, columns, cells, k - 1, e, c);
      BecomesOnly(codec, c, cells[i], e, d', d, d');
    } else {
      ShownPrefix(codec, columns, cells, k - 1, e, i);
      assert columns[k - 1] != c;
      BecomesOnly(codec, c, cells[i], e, d', e, d);
    }
  }

  /**
   The entity after a row without repeated columns: each column has become what its cell says, one that was not read is
   as it was.
   */
  lemma RowShown(codec: Codec, columns: seq<Column>, cells: seq<Cell>, e: Fields)
    requires Once(columns) && AssignAll(codec, columns, cells, e).1.None?
    ensures |columns| <= |cells|
    ensures forall i :: 0 <= i < |columns| && !columns[i].Other? ==>
              Takes(codec, columns[i], cells[i]) &&
              Becomes(codec, columns[i], cells[i], e, AssignAll(codec, columns, cells, e).0)
    ensures forall c: Column :: !c.Other? && c !in columns ==>
              ValueAt(AssignAll(codec, columns, cells, e).0, c) == ValueAt(e, c)
  {
    hide Takes, Becomes, Once, AssignFirst, ValueAt;
    forall i | 0 <= i < |columns| && !columns[i].Other?
      ensures Takes(codec, columns[i], cells[i]) &&
              Becomes(codec, columns[i], cells[i], e, AssignAll(codec, columns, cells, e).0)
    {
      ShownPrefix(codec, columns, cells, |columns|, e, i);
    }
    forall c: Column | !c.Other? && c !in columns
      ensures ValueAt(AssignAll(codec, columns, cells, e).0, c) == ValueAt(e, c)
    {
      UntouchedPrefix(codec, columns, cells, |columns|, e, c);
    }
  }
}
