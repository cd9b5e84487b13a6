/**
  What a cell write leaves in the document, read off its addresses: which content an address ends up
  with, what is kept, and what is not touched.
 */
module CellWrites {
  import opened Wrappers
  import opened Documents
  import opened Writes

  // ---- contents ----

  /** A text that leaves a formula behind once its leading `=` is gone. */
  predicate RealFormula(content: Content) {
    content.Formula? && content.text != "" && content.text != "="
  }

  /** A value is stored as text without a formula; a formula without its `=` and with no result yet. */
  predicate Says(content: Content, cell: Cell) {
    match content
    case Value(text) => cell == Cell(text, None)
    case Formula(text) =>
      && cell.value == "" && (cell.formula.Some? <==> RealFormula(content))
      && (cell.formula.Some? ==>
           text == "=" + cell.formula.value || (text == cell.formula.value && text[0] != '='))
  }

  predicate HoldsFormula(c: Option<Cell>) {
    c.Some? && c.value.formula.Some?
  }

  /** A formula is kept unless overwriting; anything else gives way. */
  predicate Written(was: Option<Cell>, now: Option<Cell>, content: Content, overwrite: bool) {
    if HoldsFormula(was) && !overwrite then now == was else now.Some? && Says(content, now.value)
  }

  lemma PlacedIsWritten(was: Option<Cell>, content: Content, overwrite: bool)
    ensures Written(was, Some(PlacedCell(was, content, overwrite)), content, overwrite)
    ensures HoldsFormula(Some(PlacedCell(was, content, overwrite))) ==> HoldsFormula(was) || RealFormula(content)
  {
  }

  // ---- many placements ----

  /**
    Whose content an address ends up with: the last one's when overwriting; otherwise the first one
    that leaves a formula, or the last one if none does.
   */
  predicate Decides(ps: seq<Placement>, i: nat, overwrite: bool) {
    && i < |ps|
    && var last := forall j | i < j < |ps| :: ps[j].addr != ps[i].addr;
       if overwrite then last
       else
         && (forall j | 0 <= j < i :: ps[j].addr == ps[i].addr ==> !RealFormula(ps[j].content))
         && (RealFormula(ps[i].content) || last)
  }

  lemma DecidesInFront(ps: seq<Placement>, i: nat, overwrite: bool)
    requires Decides(ps, i, overwrite) && i < |ps| - 1
    ensures Decides(ps[..|ps| - 1], i, overwrite)
  {
  }

  lemma {:induction false} NoFormulaArises(d: Doc, ps: seq<Placement>, overwrite: bool, a: Addr)
    requires !HoldsFormula(d.Lookup(a))
    requires forall j | 0 <= j < |ps| :: ps[j].addr == a ==> !RealFormula(ps[j].content)
    ensures !HoldsFormula(PlaceAll(d, ps, overwrite).Lookup(a))
  {
    if ps != [] {
      var front, last := ps[..|ps| - 1], ps[|ps| - 1];
      NoFormulaArises(d, front, overwrite, a);
      PlacedIsWritten(PlaceAll(d, front, overwrite).Lookup(last.addr), last.content, overwrite);
    }
  }

  lemma {:induction false} FormulaStays(d: Doc, ps: seq<Placement>, a: Addr)
    requires HoldsFormula(d.Lookup(a))
    ensures PlaceAll(d, ps, false).Lookup(a) == d.Lookup(a)
  {
    if ps != [] {
      FormulaStays(d, ps[..|ps| - 1], a);
    }
  }

  lemma {:induction false} PlacementsStore(d: Doc, ps: seq<Placement>, overwrite: bool, i: nat)
    requires Decides(ps, i, overwrite)
    ensures Written(d.Lookup(ps[i].addr), PlaceAll(d, ps, overwrite).Lookup(ps[i].addr), ps[i].content, overwrite)
  {
    var front, last, a := ps[..|ps| - 1], ps[|ps| - 1], ps[i].addr;
    if HoldsFormula(d.Lookup(a)) && !overwrite {
      FormulaStays(d, ps, a);
    } else if i == |ps| - 1 {
      PlacedIsWritten(PlaceAll(d, front, overwrite).Lookup(a), last.content, overwrite);
      if !overwrite {
        NoFormulaArises(d, front, overwrite, a);
      }
    } else {
      DecidesInFront(ps, i, overwrite);
      PlacementsStore(d, front, overwrite, i);
    }
  }

  lemma {:induction false} PlacementsKeepOthers(d: Doc, ps: seq<Placement>, overwrite: bool, a: Addr)
    requires forall j | 0 <= j < |ps| :: ps[j].addr != a
    ensures PlaceAll(d, ps, overwrite).Lookup(a) == d.Lookup(a)
  {
    if ps != [] {
      PlacementsKeepOthers(d, ps[..|ps| - 1], overwrite, a);
    }
  }

  // ---- set_cells ----

  predicate SameCell(a: Entry, b: Entry) {
    a.column == b.column && a.row == b.row
  }

  /** `Decides`, said of the entries of a request. */
  predicate EntryDecides(entries: seq<Entry>, i: nat, overwrite: bool) {
    && i < |entries|
    && var last := forall j | i < j < |entries| :: !SameCell(entries[j], entries[i]);
       if overwrite then last
       else
         && (forall j | 0 <= j < i :: SameCell(entries[j], entries[i]) ==> !RealFormula(entries[j].content))
         && (RealFormula(entries[i].content) || last)
  }

  /** A cell operation fails only for a missing sheet, and never touches the list of sheets. */
  lemma CellOpsFailWithoutSheet(engine: Engine, d: Doc, op: WriteOp)
    requires IsCommon(op)
    ensures ApplyOp(engine, d, op).1 <==> op.sheet in d.sheets || (op.SetCells? && op.entries == [])
    ensures ApplyOp(engine, d, op).0.sheets == d.sheets
  {
  }

  /** The deciding entry of an address is what the address holds afterwards, unless a formula is kept. */
  lemma SetCellsStores(engine: Engine, d: Doc, op: WriteOp, i: nat)
    requires op.SetCells? && ApplyOp(engine, d, op).1 && EntryDecides(op.entries, i, op.overwrite)
    ensures
      var a := Addr(op.sheet, op.entries[i].column, op.entries[i].row);
      Written(d.Lookup(a), ApplyOp(engine, d, op).0.Lookup(a), op.entries[i].content, op.overwrite)
  {
    var ps := EntryPlacements(op.sheet, op.entries);
    forall j | 0 <= j < |ps|
      ensures ps[j].content == op.entries[j].content
      ensures ps[j].addr == ps[i].addr <==> SameCell(op.entries[j], op.entries[i])
    {
    }
    PlacementsStore(d, ps, op.overwrite, i);
  }

  lemma {:induction false} LastForCell(entries: seq<Entry>, k: nat) returns (i: nat)
    requires k < |entries|
    ensures k <= i < |entries| && SameCell(entries[i], entries[k])
    ensures forall j | i < j < |entries| :: !SameCell(entries[j], entries[i])
    decreases |entries| - k
  {
    if j :| k < j < |entries| && SameCell(entries[j], entries[k]) {
      i := LastForCell(entries, j);
    } else {
      i := k;
    }
  }

  lemma {:induction false} FirstFormulaForCell(entries: seq<Entry>, k: nat) returns (i: nat)
    requires k < |entries| && RealFormula(entries[k].content)
    ensures i <= k && SameCell(entries[i], entries[k]) && RealFormula(entries[i].content)
    ensures forall j | 0 <= j < i :: SameCell(entries[j], entries[i]) ==> !RealFormula(entries[j].content)
  {
    if j :| 0 <= j < k && SameCell(entries[j], entries[k]) && RealFormula(entries[j].content) {
      i := FirstFormulaForCell(entries, j);
    } else {
      i := k;
    }
  }

  /** Every cell that is named has a deciding entry. */
  lemma EveryCellIsDecided(entries: seq<Entry>, k: nat, overwrite: bool) returns (i: nat)
    requires k < |entries|
    ensures EntryDecides(entries, i, overwrite) && SameCell(entries[i], entries[k])
  {
    if !overwrite {
      if j :| 0 <= j < |entries| && SameCell(entries[j], entries[k]) && RealFormula(entries[j].content) {
        i := FirstFormulaForCell(entries, j);
        return;
      }
    }
    i := LastForCell(entries, k);
  }

  /** Addresses no entry names keep their cells. */
  lemma SetCellsKeepsOthers(engine: Engine, d: Doc, op: WriteOp, a: Addr)
    requires op.SetCells?
    requires forall j | 0 <= j < |op.entries| :: a != Addr(op.sheet, op.entries[j].column, op.entries[j].row)
    ensures ApplyOp(engine, d, op).0.Lookup(a) == d.Lookup(a)
  {
    PlacementsKeepOthers(d, EntryPlacements(op.sheet, op.entries), op.overwrite, a);
  }

  // ---- write_matrix ----

  lemma {:induction false} RowPlaces(sheet: string, column: nat, row: nat, values: seq<Option<Content>>, j: nat)
    returns (k: nat)
    requires j < |values| && values[j].Some?
    ensures k < |RowPlacements(sheet, column, row, values)|
    ensures RowPlacements(sheet, column, row, values)[k] == Placement(Addr(sheet, column + j, row), values[j].value)
    decreases |values|
  {
    if j == 0 {
      k := 0;
    } else {
      k := RowPlaces(sheet, column + 1, row, values[1..], j - 1);
      k := k + (if values[0].Some? then 1 else 0);
    }
  }

  /** Each placement of a row comes from a filled place, in order of columns. */
  lemma {:induction false} RowComesFrom(sheet: string, column: nat, row: nat, values: seq<Option<Content>>, k: nat)
    returns (j: nat)
    requires k < |RowPlacements(sheet, column, row, values)|
    ensures j < |values| && values[j].Some?
    ensures RowPlacements(sheet, column, row, values)[k] == Placement(Addr(sheet, column + j, row), values[j].value)
    decreases |values|
  {
    var here := if values[0].Some? then 1 else 0;
    if k < here {
      j := 0;
    } else {
      j := RowComesFrom(sheet, column + 1, row, values[1..], k - here);
      j := j + 1;
    }
  }

  lemma {:induction false} RowIsOrdered(
    sheet: string, column: nat, row: nat, values: seq<Option<Content>>, k: nat, l: nat)
    requires k < l < |RowPlacements(sheet, column, row, values)|
    ensures
      var ps := RowPlacements(sheet, column, row, values);
      ps[k].addr.column < ps[l].addr.column
    decreases |values|
  {
    var here := if values[0].Some? then 1 else 0;
    if here <= k {
      RowIsOrdered(sheet, column + 1, row, values[1..], k - here, l - here);
    } else {
      assert RowPlacements(sheet, column, row, values)[l] == RowPlacements(sheet, column + 1, row, values[1..])[l - 1];
    }
  }

  lemma {:induction false} MatrixPlaces(
    sheet: string, column: nat, row: nat, rows: seq<seq<Option<Content>>>, i: nat, j: nat)
    returns (k: nat)
    requires i < |rows| && j < |rows[i]| && rows[i][j].Some?
    ensures k < |MatrixPlacements(sheet, column, row, rows)|
    ensures
      MatrixPlacements(sheet, column, row, rows)[k] == Placement(Addr(sheet, column + j, row + i), rows[i][j].value)
    decreases |rows|
  {
    if i == 0 {
      k := RowPlaces(sheet, column, row, rows[0], j);
    } else {
      k := MatrixPlaces(sheet, column, row + 1, rows[1..], i - 1, j);
      k := k + |RowPlacements(sheet, column, row, rows[0])|;
    }
  }

  lemma {:induction false} MatrixComesFrom(
    sheet: string, column: nat, row: nat, rows: seq<seq<Option<Content>>>, k: nat)
    returns (i: nat, j: nat)
    requires k < |MatrixPlacements(sheet, column, row, rows)|
    ensures i < |rows| && j < |rows[i]| && rows[i][j].Some?
    ensures
      MatrixPlacements(sheet, column, row, rows)[k] == Placement(Addr(sheet, column + j, row + i), rows[i][j].value)
    decreases |rows|
  {
    var first := RowPlacements(sheet, column, row, rows[0]);
    if k < |first| {
      i := 0;
      j := RowComesFrom(sheet, column, row, rows[0], k);
    } else {
      i, j := MatrixComesFrom(sheet, column, row + 1, rows[1..], k - |first|);
      i := i + 1;
    }
  }

  /** A matrix names no address twice. */
  lemma {:induction false} MatrixIsOrdered(
    sheet: string, column: nat, row: nat, rows: seq<seq<Option<Content>>>, k: nat, l: nat)
    requires k < l < |MatrixPlacements(sheet, column, row, rows)|
    ensures
      var ps := MatrixPlacements(sheet, column, row, rows);
      ps[k].addr != ps[l].addr
    decreases |rows|
  {
    var first, rest := RowPlacements(sheet, column, row, rows[0]), MatrixPlacements(sheet, column, row + 1, rows[1..]);
    if |first| <= k {
      MatrixIsOrdered(sheet, column, row + 1, rows[1..], k - |first|, l - |first|);
    } else if l < |first| {
      RowIsOrdered(sheet, column, row, rows[0], k, l);
    } else {
      assert rest[l - |first|].addr.row >= row + 1;
    }
  }

  /** Each filled place of the matrix is what its address holds afterwards, unless a formula is kept. */
  lemma WriteMatrixStores(engine: Engine, d: Doc, op: WriteOp, i: nat, j: nat)
    requires op.WriteMatrix? && ApplyOp(engine, d, op).1
    requires i < |op.rows| && j < |op.rows[i]| && op.rows[i][j].Some?
    ensures
      var a := Addr(op.sheet, op.column + j, op.row + i);
      Written(d.Lookup(a), ApplyOp(engine, d, op).0.Lookup(a), op.rows[i][j].value, op.overwrite)
  {
    hide MatrixPlacements, PlaceAll, Written, RealFormula;
    var ps := MatrixPlacements(op.sheet, op.column, op.row, op.rows);
    var k := MatrixPlaces(op.sheet, op.column, op.row, op.rows, i, j);
    forall l | 0 <= l < |ps| && l != k ensures ps[l].addr != ps[k].addr {
      MatrixIsOrdered(op.sheet, op.column, op.row, op.rows, if l < k then l else k, if l < k then k else l);
    }
    PlacementsStore(d, ps, op.overwrite, k);
  }

  /** Addresses outside the filled places keep their cells. */
  lemma WriteMatrixKeepsOthers(engine: Engine, d: Doc, op: WriteOp, a: Addr)
    requires op.WriteMatrix?
    requires forall i, j | 0 <= i < |op.rows| && 0 <= j < |op.rows[i]| && op.rows[i][j].Some? ::
      a != Addr(op.sheet, op.column + j, op.row + i)
    ensures ApplyOp(engine, d, op).0.Lookup(a) == d.Lookup(a)
  {
    var ps := MatrixPlacements(op.sheet, op.column, op.row, op.rows);
    forall k | 0 <= k < |ps| ensures ps[k].addr != a {
      var i, j := MatrixComesFrom(op.sheet, op.column, op.row, op.rows, k);
    }
    PlacementsKeepOthers(d, ps, op.overwrite, a);
  }
}
