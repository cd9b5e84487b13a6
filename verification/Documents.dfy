/**
  Workbook content and the two ways a journalled publication meets it.

  A formula cell carries its formula and the result cached by the last calculation. The journal
  records formulas, never results, so a recovered document agrees with the live one only up to
  cached results. `Blank` forgets them; `SameLogic` is agreement after forgetting.
 */
module Documents {
  import opened Wrappers

  datatype Addr = Addr(sheet: string, column: nat, row: nat)

  datatype Cell = Cell(value: string, formula: Option<string>)

  datatype Doc = Doc(sheets: set<string>, cells: map<Addr, Cell>) {
    function Lookup(a: Addr): Option<Cell> {
      if a in cells then Some(cells[a]) else None
    }

    function Put(a: Addr, c: Cell): Doc {
      this.(cells := cells[a := c])
    }
  }

  function BlankCell(c: Cell): Cell {
    if c.formula.Some? then c.(value := "") else c
  }

  /** The document whose serialisation the logical hash identifies: formula results blanked. */
  function Blank(d: Doc): Doc {
    Doc(d.sheets, map a | a in d.cells :: BlankCell(d.cells[a]))
  }

  predicate SameLogic(a: Doc, b: Doc) {
    Blank(a) == Blank(b)
  }

  lemma SameLogicCells(a: Doc, b: Doc)
    requires a.sheets == b.sheets
    requires a.cells.Keys == b.cells.Keys
    requires forall k | k in a.cells :: BlankCell(a.cells[k]) == BlankCell(b.cells[k])
    ensures SameLogic(a, b)
  {
    assert Blank(a).cells == Blank(b).cells;
  }

  lemma SameLogicAt(a: Doc, b: Doc, k: Addr)
    requires SameLogic(a, b)
    ensures a.sheets == b.sheets && (k in a.cells <==> k in b.cells)
    ensures k in a.cells ==> BlankCell(a.cells[k]) == BlankCell(b.cells[k])
  {
    assert k in a.cells <==> k in Blank(a).cells;
    assert k in b.cells <==> k in Blank(b).cells;
    if k in a.cells {
      assert Blank(a).cells[k] == Blank(b).cells[k];
    }
  }

  // ---- prepared cell effects ----

  datatype CellEffect = CellEffect(addr: Addr, before: Option<Cell>, after: Cell)

  /** The precondition test of recovery, branch for branch. */
  predicate LogicalPredecessorMatches(current: Option<Cell>, expected: Option<Cell>) {
    match (current, expected)
    case (None, None) => true
    case (Some(c), Some(e)) => if e.formula.Some? then c.formula == e.formula else c == e
    case (_, _) => false
  }

  function BlankOption(c: Option<Cell>): Option<Cell> {
    if c.Some? then Some(BlankCell(c.value)) else None
  }

  /** The cell-wise test of recovery and the whole-document logical hash are one notion. */
  lemma PredecessorTestIsLogicalEquality(current: Option<Cell>, expected: Option<Cell>)
    ensures LogicalPredecessorMatches(current, expected) <==> BlankOption(current) == BlankOption(expected)
  {
  }

  predicate Before(d: Doc, e: CellEffect, exact: bool) {
    && e.addr.sheet in d.sheets
    && if exact then d.Lookup(e.addr) == e.before
       else LogicalPredecessorMatches(d.Lookup(e.addr), e.before)
  }

  predicate AllBefore(d: Doc, effects: seq<CellEffect>, exact: bool) {
    forall i | 0 <= i < |effects| :: Before(d, effects[i], exact)
  }

  function Assign(d: Doc, effects: seq<CellEffect>): (r: Doc)
    ensures r.sheets == d.sheets
  {
    if effects == [] then d
    else
      var last := |effects| - 1;
      Assign(d, effects[..last]).Put(effects[last].addr, effects[last].after)
  }

  lemma {:induction false} AssignKeepsLogic(a: Doc, b: Doc, effects: seq<CellEffect>)
    requires SameLogic(a, b)
    ensures SameLogic(Assign(a, effects), Assign(b, effects))
  {
    if effects != [] {
      var last := |effects| - 1;
      AssignKeepsLogic(a, b, effects[..last]);
      var a', b' := Assign(a, effects[..last]), Assign(b, effects[..last]);
      forall k
        ensures k in a'.cells <==> k in b'.cells
        ensures k in a'.cells ==> BlankCell(a'.cells[k]) == BlankCell(b'.cells[k])
      {
        SameLogicAt(a', b', k);
      }
      SameLogicCells(Assign(a, effects), Assign(b, effects));
    }
  }

  predicate DistinctTargets(effects: seq<CellEffect>) {
    forall i, j | 0 <= i < j < |effects| :: effects[i].addr != effects[j].addr
  }

  /** With distinct targets the assigned document is a pointwise overlay, whatever the order. */
  lemma {:induction false} AssignAt(d: Doc, effects: seq<CellEffect>, a: Addr)
    requires DistinctTargets(effects)
    ensures forall i | 0 <= i < |effects| && effects[i].addr == a ::
      Assign(d, effects).Lookup(a) == Some(effects[i].after)
    ensures (forall i | 0 <= i < |effects| :: effects[i].addr != a) ==> Assign(d, effects).Lookup(a) == d.Lookup(a)
  {
    if effects != [] {
      AssignAt(d, effects[..|effects| - 1], a);
    }
  }

  // ---- publications ----

  datatype CalculationEffect = Preserve | Invalidate

  datatype Publication =
    | NoPublication
    | Cells(effects: seq<CellEffect>)
    | Snapshot(before: Doc, after: Doc, calculation: CalculationEffect)

  /** What a publication makes of a document; `exact` distinguishes live publishing from recovery. */
  function Publish(d: Doc, p: Publication, exact: bool): Option<Doc> {
    match p
    case NoPublication => Some(d)
    case Cells(effects) => if AllBefore(d, effects, exact) then Some(Assign(d, effects)) else None
    case Snapshot(before, after, _) => if Blank(d) == before then Some(after) else None
  }

  /** A publication accepted live is accepted again, on any logically equal document, with the same meaning. */
  lemma RecoveryAcceptsPublished(live: Doc, other: Doc, p: Publication)
    requires SameLogic(live, other)
    requires Publish(live, p, true).Some?
    ensures Publish(other, p, false).Some?
    ensures SameLogic(Publish(live, p, true).value, Publish(other, p, false).value)
  {
    match p
    case NoPublication =>
    case Snapshot(_, _, _) =>
    case Cells(effects) =>
      forall i | 0 <= i < |effects| ensures Before(other, effects[i], false) {
        assert Before(live, effects[i], true);
        SameLogicAt(live, other, effects[i].addr);
        PredecessorTestIsLogicalEquality(other.Lookup(effects[i].addr), effects[i].before);
      }
      AssignKeepsLogic(live, other, effects);
  }
}
