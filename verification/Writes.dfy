/**
  Write requests: what the operations mean, how a transaction reports them, and the two ways a
  resident session prepares one. The general way runs the operations on a clone of the workbook;
  the fast way runs cell operations on a shadow that holds only the touched cells.
 */
module Writes {
  import opened Wrappers
  import opened Documents

  type Id = string

  /** ASCII letters and digits, `_` and `-`. */
  predicate IsIdentifierChar(x: char) {
    'a' <= x <= 'z' || 'A' <= x <= 'Z' || '0' <= x <= '9' || x == '_' || x == '-'
  }

  datatype Revision = Revision(epoch: string, document: nat, state: nat) {
    function Edited(): Revision {
      Revision(epoch, document + 1, state + 1)
    }

    function Noted(): Revision {
      this.(state := state + 1)
    }
  }

  datatype Content = Value(text: string) | Formula(text: string)

  datatype Placement = Placement(addr: Addr, content: Content)

  datatype Entry = Entry(column: nat, row: nat, content: Content)

  datatype WriteOp =
    | SetCells(sheet: string, entries: seq<Entry>, overwrite: bool)
    | WriteMatrix(sheet: string, column: nat, row: nat, rows: seq<seq<Option<Content>>>, overwrite: bool)
    | Other(kind: string, declaredCells: nat)

  datatype Mode = Preview | Stage | Apply

  datatype Request = Request(
    resource: Id, expected: Revision, mode: Mode, atomic: bool, ops: seq<WriteOp>, title: Option<string>)

  /** Semantics of the operations other than cell writes: the document after, and whether it succeeded. */
  type Engine = (Doc, WriteOp) -> (Doc, bool)

  const MAX_ROW := 1_048_576
  const MAX_COLUMN := 16_384
  const MAX_WRITE_OPS := 128
  const MAX_WRITE_CELLS := 100_000
  const MAX_PREPARED_COMMON_CELLS := 100_000

  // ---- cell operations ----

  predicate IsCommon(op: WriteOp) {
    !op.Other?
  }

  predicate AllCommon(ops: seq<WriteOp>) {
    forall i | 0 <= i < |ops| :: IsCommon(ops[i])
  }

  function EntryPlacements(sheet: string, entries: seq<Entry>): (r: seq<Placement>)
    ensures |r| == |entries|
    ensures forall i | 0 <= i < |r| ::
      r[i] == Placement(Addr(sheet, entries[i].column, entries[i].row), entries[i].content)
  {
    seq(|entries|, i requires 0 <= i < |entries| =>
      Placement(Addr(sheet, entries[i].column, entries[i].row), entries[i].content))
  }

  function RowPlacements(sheet: string, column: nat, row: nat, values: seq<Option<Content>>): (r: seq<Placement>)
    ensures |r| <= |values|
    ensures forall i | 0 <= i < |r| :: r[i].addr.sheet == sheet && r[i].addr.row == row
    ensures forall i | 0 <= i < |r| :: column <= r[i].addr.column < column + |values|
    decreases |values|
  {
    if values == [] then []
    else
      (if values[0].Some? then [Placement(Addr(sheet, column, row), values[0].value)] else [])
      + RowPlacements(sheet, column + 1, row, values[1..])
  }

  function RowWidths(rows: seq<seq<Option<Content>>>): nat {
    if rows == [] then 0 else |rows[0]| + RowWidths(rows[1..])
  }

  predicate RowsFit(rows: seq<seq<Option<Content>>>, width: nat) {
    forall i | 0 <= i < |rows| :: |rows[i]| <= width
  }

  function MatrixPlacements(sheet: string, column: nat, row: nat, rows: seq<seq<Option<Content>>>): (r: seq<Placement>)
    ensures |r| <= RowWidths(rows)
    ensures forall i | 0 <= i < |r| ::
      r[i].addr.sheet == sheet && row <= r[i].addr.row < row + |rows| && column <= r[i].addr.column
    ensures forall w | RowsFit(rows, w) :: forall i | 0 <= i < |r| :: r[i].addr.column < column + w
    decreases |rows|
  {
    if rows == [] then []
    else
      assert forall w | RowsFit(rows, w) :: |rows[0]| <= w && RowsFit(rows[1..], w);
      RowPlacements(sheet, column, row, rows[0]) + MatrixPlacements(sheet, column, row + 1, rows[1..])
  }

  function Placements(op: WriteOp): seq<Placement>
    requires IsCommon(op)
  {
    match op
    case SetCells(sheet, entries, _) => EntryPlacements(sheet, entries)
    case WriteMatrix(sheet, column, row, rows, _) => MatrixPlacements(sheet, column, row, rows)
  }

  predicate InGrid(a: Addr) {
    a.sheet != "" && 1 <= a.column <= MAX_COLUMN && 1 <= a.row <= MAX_ROW
  }

  /** The addresses a cell operation may write; None is the matrix bounds error. */
  function Touched(op: WriteOp): (r: Option<seq<Addr>>)
    requires IsCommon(op)
    ensures r.Some? ==>
      |r.value| == |Placements(op)| && forall i | 0 <= i < |r.value| :: r.value[i] == Placements(op)[i].addr
  {
    var ps := Placements(op);
    if op.WriteMatrix? && exists i | 0 <= i < |ps| :: ps[i].addr.row > MAX_ROW || ps[i].addr.column > MAX_COLUMN
      then None
    else Some(seq(|ps|, i requires 0 <= i < |ps| => ps[i].addr))
  }

  function StripEquals(f: string): string {
    if f != [] && f[0] == '=' then f[1..] else f
  }

  /** One cell write: a formula is kept unless overwriting, and a formula is stored without its `=`. */
  function PlacedCell(current: Option<Cell>, content: Content, overwrite: bool): Cell {
    if current.Some? && current.value.formula.Some? && !overwrite then current.value
    else
      match content
      case Value(text) => Cell(text, None)
      case Formula(text) =>
        var stripped := StripEquals(text);
        Cell("", if stripped == "" then None else Some(stripped))
  }

  function Place(d: Doc, p: Placement, overwrite: bool): Doc {
    d.Put(p.addr, PlacedCell(d.Lookup(p.addr), p.content, overwrite))
  }

  function PlaceAll(d: Doc, ps: seq<Placement>, overwrite: bool): (r: Doc)
    ensures r.sheets == d.sheets
  {
    if ps == [] then d else Place(PlaceAll(d, ps[..|ps| - 1], overwrite), ps[|ps| - 1], overwrite)
  }

  function ApplyOp(engine: Engine, d: Doc, op: WriteOp): (Doc, bool) {
    match op
    case SetCells(sheet, entries, overwrite) =>
      if entries != [] && sheet !in d.sheets then (d, false) else (PlaceAll(d, Placements(op), overwrite), true)
    case WriteMatrix(sheet, _, _, _, overwrite) =>
      if sheet !in d.sheets then (d, false) else (PlaceAll(d, Placements(op), overwrite), true)
    case Other(_, _) => engine(d, op)
  }

  /** A failing cell operation leaves its document alone, so running it without a clone is harmless. */
  lemma FailingCellOpChangesNothing(engine: Engine, d: Doc, op: WriteOp)
    requires IsCommon(op)
    requires !ApplyOp(engine, d, op).1
    ensures ApplyOp(engine, d, op).0 == d
  {
  }

  // ---- running a list of operations ----

  datatype Status = Previewed | Staged | Applied | Failed | Skipped | RolledBack

  datatype Run = Run(doc: Doc, results: seq<Status>, failure: Option<nat>)

  /** After the first failure everything is skipped; `clone` says whether a failing operation works on a copy. */
  function RunOps(engine: Engine, d: Doc, ops: seq<WriteOp>, clone: bool): (r: Run)
    ensures |r.results| == |ops|
    ensures r.failure.Some? ==> r.failure.value < |ops|
  {
    if ops == [] then Run(d, [], None)
    else
      var last := |ops| - 1;
      RunOne(engine, RunOps(engine, d, ops[..last], clone), ops[last], clone)
  }

  function RunOne(engine: Engine, r: Run, op: WriteOp, clone: bool): Run {
    if r.failure.Some? then r.(results := r.results + [Skipped])
    else
      var (d', ok) := ApplyOp(engine, r.doc, op);
      if ok then Run(d', r.results + [Applied], None)
      else Run(if clone then r.doc else d', r.results + [Failed], Some(|r.results|))
  }

  lemma RunStep(engine: Engine, d: Doc, ops: seq<WriteOp>, n: nat, clone: bool)
    requires n < |ops|
    ensures RunOps(engine, d, ops[..n + 1], clone) == RunOne(engine, RunOps(engine, d, ops[..n], clone), ops[n], clone)
  {
    assert ops[..n + 1][..n] == ops[..n];
  }

  function Repeat(s: Status, n: nat): (r: seq<Status>)
    ensures |r| == n && forall i | 0 <= i < n :: r[i] == s
  {
    seq(n, _ => s)
  }

  /** `done` of one kind, then at most one failure, then only skipped operations. */
  predicate Shape(results: seq<Status>, kind: Status, done: nat, failed: bool) {
    && done <= |results|
    && (failed <==> done < |results|)
    && (failed ==> results[done] == Failed)
    && (forall i | 0 <= i < done :: results[i] == kind)
    && (forall i | done < i < |results| :: results[i] == Skipped)
  }

  lemma {:induction false} RunShape(engine: Engine, d: Doc, ops: seq<WriteOp>, clone: bool)
    ensures
      var r := RunOps(engine, d, ops, clone);
      Shape(r.results, Applied, if r.failure.Some? then r.failure.value else |ops|, r.failure.Some?)
  {
    if ops != [] {
      RunShape(engine, d, ops[..|ops| - 1], clone);
    }
  }

  /** Every operation of a prefix succeeds, each on what the ones before it made. */
  predicate AllSucceed(engine: Engine, d: Doc, ops: seq<WriteOp>) {
    ops == [] ||
    (AllSucceed(engine, d, ops[..|ops| - 1]) && ApplyOp(engine, Fold(engine, d, ops[..|ops| - 1]), ops[|ops| - 1]).1)
  }

  function Fold(engine: Engine, d: Doc, ops: seq<WriteOp>): Doc {
    if ops == [] then d else ApplyOp(engine, Fold(engine, d, ops[..|ops| - 1]), ops[|ops| - 1]).0
  }

  /** The run stops exactly at the first failing operation, and what it keeps is the fold before it. */
  lemma {:induction false} RunIsExactPrefix(engine: Engine, d: Doc, ops: seq<WriteOp>, clone: bool)
    ensures
      var r := RunOps(engine, d, ops, clone);
      && (r.failure.None? <==> AllSucceed(engine, d, ops))
      && (r.failure.None? ==> r.doc == Fold(engine, d, ops))
      && (r.failure.Some? ==>
            && AllSucceed(engine, d, ops[..r.failure.value])
            && !ApplyOp(engine, Fold(engine, d, ops[..r.failure.value]), ops[r.failure.value]).1
            && (clone ==> r.doc == Fold(engine, d, ops[..r.failure.value])))
  {
    if ops != [] {
      var shorter := ops[..|ops| - 1];
      RunIsExactPrefix(engine, d, shorter, clone);
      var r := RunOps(engine, d, shorter, clone);
      if r.failure.Some? {
        assert ops[..r.failure.value] == shorter[..r.failure.value];
      }
    }
  }

  // ---- requests and responses ----

  function CellCount(op: WriteOp): nat {
    match op
    case SetCells(_, entries, _) => |entries|
    case WriteMatrix(_, _, _, rows, _) => RowWidths(rows)
    case Other(_, declared) => declared
  }

  function CellTotal(ops: seq<WriteOp>): nat {
    if ops == [] then 0 else CellTotal(ops[..|ops| - 1]) + CellCount(ops[|ops| - 1])
  }

  predicate ValidSheetName(name: string) {
    && 1 <= |name| <= 31
    && (forall c | c in name :: c !in {'[', ']', ':', '*', '?', '/', '\\'})
    && name[0] != '\'' && name[|name| - 1] != '\''
  }

  predicate ValidOp(op: WriteOp) {
    match op
    case SetCells(sheet, entries, _) =>
      && ValidSheetName(sheet)
      && entries != []
      && forall i | 0 <= i < |entries| :: 1 <= entries[i].column <= MAX_COLUMN && 1 <= entries[i].row <= MAX_ROW
    case WriteMatrix(sheet, column, row, rows, _) =>
      && ValidSheetName(sheet)
      && 1 <= column && 1 <= row && rows != []
      && (forall i | 0 <= i < |rows| :: rows[i] != [] && column + |rows[i]| <= MAX_COLUMN + 1)
      && row + |rows| <= MAX_ROW + 1
    case Other(_, _) => true
  }

  predicate ValidRequest(r: Request) {
    && 1 <= |r.ops| <= MAX_WRITE_OPS
    && (r.mode == Stage ==> r.atomic)
    && (forall i | 0 <= i < |r.ops| :: ValidOp(r.ops[i]))
    && CellTotal(r.ops) <= MAX_WRITE_CELLS
  }

  lemma {:induction false} CellTotalGrows(ops: seq<WriteOp>, n: nat)
    requires n <= |ops|
    ensures CellTotal(ops[..n]) <= CellTotal(ops)
  {
    if n < |ops| {
      var shorter := ops[..|ops| - 1];
      CellTotalGrows(shorter, n);
      assert shorter[..n] == ops[..n];
    } else {
      assert ops[..n] == ops;
    }
  }

  lemma CellTotalStep(ops: seq<WriteOp>, n: nat)
    requires n < |ops|
    ensures CellTotal(ops[..n + 1]) == CellTotal(ops[..n]) + CellCount(ops[n])
  {
    assert ops[..n + 1][..n] == ops[..n];
  }

  method ValidateSheetName(name: string) returns (ok: bool)
    ensures ok <==> ValidSheetName(name)
  {
    if name == "" || |name| > 31 {
      return false;
    }
    for i := 0 to |name|
      invariant forall k | 0 <= k < i :: name[k] !in {'[', ']', ':', '*', '?', '/', '\\'}
    {
      var ch := name[i];
      assert ch in name;
      if ch == '[' || ch == ']' || ch == ':' || ch == '*' || ch == '?' || ch == '/' || ch == '\\' {
        return false;
      }
    }
    return name[0] != '\'' && name[|name| - 1] != '\'';
  }

  lemma WidthsStep(rows: seq<seq<Option<Content>>>, n: nat)
    requires n < |rows|
    ensures RowWidths(rows[..n + 1]) == RowWidths(rows[..n]) + |rows[n]|
    decreases n
  {
    if n > 0 {
      assert rows[..n + 1][1..] == rows[1..][..n] && rows[..n][1..] == rows[1..][..n - 1];
      WidthsStep(rows[1..], n - 1);
    }
  }

  /** The checks of one operation, and how many cells it declares. */
  method CheckOp(op: WriteOp) returns (ok: bool, cells: nat)
    ensures ok <==> ValidOp(op)
    ensures ok ==> cells == CellCount(op)
  {
    match op
    case SetCells(sheet, entries, _) =>
      ok := ValidateSheetName(sheet);
      if !ok || entries == [] {
        return false, 0;
      }
      for i := 0 to |entries|
        invariant forall k | 0 <= k < i :: 1 <= entries[k].column <= MAX_COLUMN && 1 <= entries[k].row <= MAX_ROW
      {
        if entries[i].column < 1 || entries[i].column > 16_384 || entries[i].row < 1 || entries[i].row > 1_048_576 {
          return false, 0;
        }
      }
      return true, |entries|;
    case WriteMatrix(sheet, column, row, rows, _) =>
      ok := ValidateSheetName(sheet);
      if !ok || column < 1 || row < 1 || rows == [] || row + |rows| > 1_048_577 {
        return false, 0;
      }
      cells := 0;
      for i := 0 to |rows|
        invariant forall k | 0 <= k < i :: rows[k] != [] && column + |rows[k]| <= MAX_COLUMN + 1
        invariant cells == RowWidths(rows[..i])
      {
        if rows[i] == [] || column + |rows[i]| > 16_385 {
          return false, 0;
        }
        WidthsStep(rows, i);
        cells := cells + |rows[i]|;
      }
      assert rows[..|rows|] == rows;
      return true, cells;
    case Other(_, declared) => return true, declared;
  }

  method ValidateRequest(r: Request) returns (ok: bool)
    ensures ok <==> ValidRequest(r)
  {
    if r.ops == [] || |r.ops| > MAX_WRITE_OPS {
      return false;
    }
    if r.mode == Stage && !r.atomic {
      return false;
    }
    var cells := 0;
    for index := 0 to |r.ops|
      invariant cells == CellTotal(r.ops[..index]) <= MAX_WRITE_CELLS
      invariant forall i | 0 <= i < index :: ValidOp(r.ops[i])
    {
      var ok, counted := CheckOp(r.ops[index]);
      if !ok {
        return false;
      }
      assert r.ops[..index + 1][..index] == r.ops[..index];
      cells := cells + counted;
      if cells > MAX_WRITE_CELLS {
        CellTotalGrows(r.ops, index + 1);
        return false;
      }
    }
    assert r.ops[..|r.ops|] == r.ops;
    return true;
  }

  datatype Kind = WasPreviewed | WasStaged | WasApplied | WasPartial | WasFailed | WasRolledBack

  datatype Response = Response(
    kind: Kind, mode: Mode, atomic: bool, before: Revision, after: Revision,
    ops: nat, results: seq<Status>, changeId: Option<Id>)

  function Rename(results: seq<Status>, n: nat, s: Status): seq<Status>
    requires n <= |results|
  {
    Repeat(s, n) + results[n..]
  }

  function Respond(
    req: Request, before: Revision, after: Revision, results: seq<Status>,
    failure: Option<nat>, applied: nat, changeId: Option<Id>): Response
    requires failure.Some? ==> failure.value <= |results|
  {
    if failure.Some? then
      if req.mode == Apply && req.atomic then
        Response(WasRolledBack, Apply, true, before, before, 0, Rename(results, failure.value, RolledBack), None)
      else if req.mode != Apply then
        Response(WasFailed, req.mode, req.atomic, before, before, 0, Rename(results, failure.value, RolledBack), None)
      else
        Response(WasPartial, Apply, false, before, after, applied, results, None)
    else
      match req.mode
      case Preview =>
        Response(WasPreviewed, Preview, req.atomic, before, before, |req.ops|, Repeat(Previewed, |results|), None)
      case Stage => Response(WasStaged, Stage, true, before, after, |req.ops|, Repeat(Staged, |results|), changeId)
      case Apply => Response(WasApplied, Apply, req.atomic, before, after, applied, results, None)
  }

  function StatusOf(k: Kind): Status {
    match k
    case WasPreviewed => Previewed
    case WasStaged => Staged
    case WasApplied => Applied
    case WasPartial => Applied
    case WasFailed => RolledBack
    case WasRolledBack => RolledBack
  }

  function Succeeded(results: seq<Status>): nat {
    if results == [] then 0
    else Succeeded(results[..|results| - 1]) + (if results[|results| - 1] == Applied then 1 else 0)
  }

  lemma {:induction false} RunSucceeded(engine: Engine, d: Doc, ops: seq<WriteOp>, clone: bool)
    ensures
      var r := RunOps(engine, d, ops, clone);
      Succeeded(r.results) == if r.failure.Some? then r.failure.value else |ops|
  {
    if ops != [] {
      var last := |ops| - 1;
      RunSucceeded(engine, d, ops[..last], clone);
      assert RunOps(engine, d, ops, clone).results[..last] == RunOps(engine, d, ops[..last], clone).results;
    }
  }

  /**
    The report is truthful: its results are one run of the variant's own status, then a failure
    exactly in the failing variants, then skips; the variant follows from mode, atomicity and failure;
    it counts as done what it lists as done; only what committed or was staged moves the revision; and
    only a stage names a change.
   */
  predicate Truthful(
    req: Request, before: Revision, after: Revision, failure: Option<nat>, changeId: Option<Id>, reply: Response)
  {
    var done := if failure.Some? then failure.value else |req.ops|;
    var undone := reply.kind.WasFailed? || reply.kind.WasRolledBack?;
    && reply.mode == req.mode && reply.before == before
    && reply.atomic == (req.atomic || reply.kind.WasStaged?)
    && reply.ops == (if undone then 0 else done)
    && reply.after == (if undone || reply.kind.WasPreviewed? then before else after)
    && reply.changeId == (if reply.kind.WasStaged? then changeId else None)
    && |reply.results| == |req.ops|
    && Shape(reply.results, StatusOf(reply.kind), done, failure.Some?)
    && (reply.kind.WasPreviewed? <==> failure.None? && req.mode == Preview)
    && (reply.kind.WasStaged? <==> failure.None? && req.mode == Stage)
    && (reply.kind.WasApplied? <==> failure.None? && req.mode == Apply)
    && (reply.kind.WasFailed? <==> failure.Some? && req.mode != Apply)
    && (reply.kind.WasRolledBack? <==> failure.Some? && req.mode == Apply && req.atomic)
    && (reply.kind.WasPartial? <==> failure.Some? && req.mode == Apply && !req.atomic)
  }

  lemma RenamedShape(results: seq<Status>, n: nat)
    requires n < |results| && Shape(results, Applied, n, true)
    ensures Shape(Rename(results, n, RolledBack), RolledBack, n, true) && |Rename(results, n, RolledBack)| == |results|
  {
  }

  lemma RepeatedShape(s: Status, n: nat)
    ensures Shape(Repeat(s, n), s, n, false)
  {
  }

  lemma FailureIsTruthful(
    req: Request, before: Revision, after: Revision, results: seq<Status>, n: nat, changeId: Option<Id>)
    requires |results| == |req.ops| && n < |req.ops| && Shape(results, Applied, n, true) && Succeeded(results) == n
    ensures
      Truthful(
        req, before, after, Some(n), changeId,
        Respond(req, before, after, results, Some(n), Succeeded(results), changeId))
  {
    RenamedShape(results, n);
    hide Shape, Rename, Succeeded, Repeat;
  }

  lemma SuccessIsTruthful(
    req: Request, before: Revision, after: Revision, results: seq<Status>, changeId: Option<Id>)
    requires |results| == |req.ops| && Shape(results, Applied, |req.ops|, false) && Succeeded(results) == |req.ops|
    ensures
      Truthful(
        req, before, after, None, changeId,
        Respond(req, before, after, results, None, Succeeded(results), changeId))
  {
    RepeatedShape(Previewed, |results|);
    RepeatedShape(Staged, |results|);
    hide Shape, Rename, Succeeded, Repeat;
  }

  lemma ResponseIsTruthful(
    engine: Engine, d: Doc, req: Request, clone: bool, before: Revision, after: Revision, changeId: Option<Id>)
    ensures
      var r := RunOps(engine, d, req.ops, clone);
      Truthful(
        req, before, after, r.failure, changeId,
        Respond(req, before, after, r.results, r.failure, Succeeded(r.results), changeId))
  {
    RunShape(engine, d, req.ops, clone);
    RunSucceeded(engine, d, req.ops, clone);
    var r := RunOps(engine, d, req.ops, clone);
    hide RunOps, Succeeded, Respond, Truthful, Shape;
    if r.failure.Some? {
      FailureIsTruthful(req, before, after, r.results, r.failure.value, changeId);
    } else {
      SuccessIsTruthful(req, before, after, r.results, changeId);
    }
  }

  // ---- the general path ----

  /** The document a transaction commits, if it commits one. */
  function Committed(engine: Engine, d: Doc, req: Request): Option<Doc> {
    var r := RunOps(engine, d, req.ops, !req.atomic);
    if req.mode != Apply then None
    else if req.atomic then if r.failure.None? then Some(r.doc) else None
    else if Succeeded(r.results) > 0 then Some(r.doc) else None
  }

  /** All or nothing when atomic; exactly the operations before the first failure otherwise. */
  lemma TransactionIsAtomicOrPrefix(engine: Engine, d: Doc, req: Request)
    requires req.mode == Apply && req.ops != []
    ensures req.atomic ==>
      Committed(engine, d, req) == if AllSucceed(engine, d, req.ops) then Some(Fold(engine, d, req.ops)) else None
    ensures !req.atomic && AllSucceed(engine, d, req.ops) ==>
      Committed(engine, d, req) == Some(Fold(engine, d, req.ops))
    ensures !req.atomic && !AllSucceed(engine, d, req.ops) ==>
      exists n | 0 <= n < |req.ops| ::
        && AllSucceed(engine, d, req.ops[..n])
        && !ApplyOp(engine, Fold(engine, d, req.ops[..n]), req.ops[n]).1
        && Committed(engine, d, req) == if n == 0 then None else Some(Fold(engine, d, req.ops[..n]))
  {
    RunIsExactPrefix(engine, d, req.ops, !req.atomic);
    RunSucceeded(engine, d, req.ops, !req.atomic);
  }

  method ApplyAtomicCandidate(engine: Engine, original: Doc, ops: seq<WriteOp>)
    returns (candidate: Doc, results: seq<Status>, failure: Option<nat>)
    ensures Run(candidate, results, failure) == RunOps(engine, original, ops, false)
  {
    candidate, results, failure := original, [], None;
    for index := 0 to |ops|
      invariant Run(candidate, results, failure) == RunOps(engine, original, ops[..index], false)
    {
      assert ops[..index + 1][..index] == ops[..index];
      if failure.Some? {
        results := results + [Skipped];
      } else {
        var (next, ok) := ApplyOp(engine, candidate, ops[index]);
        candidate := next;
        if ok {
          results := results + [Applied];
        } else {
          failure := Some(index);
          results := results + [Failed];
        }
      }
    }
    assert ops[..|ops|] == ops;
  }

  method RunOnClones(engine: Engine, original: Doc, ops: seq<WriteOp>)
    returns (current: Doc, results: seq<Status>, applied: nat, failure: Option<nat>)
    ensures Run(current, results, failure) == RunOps(engine, original, ops, true)
    ensures applied == Succeeded(results)
    ensures failure.Some? ==> failure.value == applied
  {
    current, results, applied, failure := original, [], 0, None;
    for index := 0 to |ops|
      invariant Run(current, results, failure) == RunOps(engine, original, ops[..index], true)
      invariant applied == if failure.Some? then failure.value else index
    {
      assert ops[..index + 1][..index] == ops[..index];
      if failure.Some? {
        results := results + [Skipped];
      } else {
        var (candidate, ok) := ApplyOp(engine, current, ops[index]);
        if ok {
          current := candidate;
          applied := applied + 1;
          results := results + [Applied];
        } else {
          failure := Some(applied);
          results := results + [Failed];
        }
      }
    }
    assert ops[..|ops|] == ops;
    RunSucceeded(engine, original, ops, true);
  }

  /** The transaction over a byte snapshot: what it answers and what it would write back. */
  method ExecuteOnBytes(engine: Engine, snapshot: Doc, revision: Revision, req: Request, next: Revision)
    returns (reply: Result<Response>, committed: Option<Doc>)
    ensures reply.Ok? <==> ValidRequest(req) && req.mode != Stage && req.expected == revision
    ensures reply.Ok? ==> committed == Committed(engine, snapshot, req)
    ensures reply.Ok? ==>
      var r := RunOps(engine, snapshot, req.ops, req.mode == Apply && !req.atomic);
      reply.value == Respond(
        req, revision, if committed.Some? then next else revision, r.results, r.failure, Succeeded(r.results), None)
    ensures reply.Err? ==> committed == None
  {
    committed := None;
    var valid := ValidateRequest(req);
    if !valid || req.mode == Stage || req.expected != revision {
      return Err, None;
    }
    if req.mode == Preview || req.atomic {
      var candidate, results, failure := ApplyAtomicCandidate(engine, snapshot, req.ops);
      RunSucceeded(engine, snapshot, req.ops, false);
      if failure.Some? {
        return Ok(Respond(req, revision, revision, results, failure, 0, None)), None;
      }
      if req.mode == Apply {
        committed := Some(candidate);
      }
      reply := Ok(Respond(req, revision, if committed.Some? then next else revision, results, None, |req.ops|, None));
      return;
    }
    var current, results, applied, failure := RunOnClones(engine, snapshot, req.ops);
    if applied > 0 {
      committed := Some(current);
    }
    reply := Ok(Respond(
      req, revision, if committed.Some? then next else revision, results,
      failure, applied, None));
  }
}
