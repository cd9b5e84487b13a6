/**
  Reading many ranges a page at a time, under a row limit, a cell budget and a byte budget, with a
  cursor that says where the next page starts.
 */
module Paging {
  import opened Wrappers
  import opened Addresses
  import opened Numerals
  import opened Sequences

  /** One returned stretch of rows of one requested range. */
  datatype Block = Block(index: nat, range: Rect, columns: nat)

  datatype Cursor = Cursor(index: nat, row: nat)

  /** The limits of one call; `size` is the length of the blocks written as JSON. */
  datatype Budget = Budget(cells: Option<nat>, bytes: Option<nat>, size: seq<Block> -> nat)

  // ---- how many rows fit ----

  predicate Fits(b: Budget, blocks: seq<Block>) {
    b.bytes.Some? ==> b.size(blocks) <= b.bytes.value
  }

  function SaturatingSub(a: nat, b: nat): nat {
    if a > b then a - b else 0
  }

  function Min(a: nat, b: nat): nat {
    if a < b then a else b
  }

  function CellLimit(b: Budget, available: nat, perRow: nat, emitted: nat): (n: nat)
    ensures n <= available
    ensures b.cells.Some? && perRow > 0 && emitted <= b.cells.value ==> emitted + n * perRow <= b.cells.value
  {
    if b.cells.None? || perRow == 0 then available
    else
      DivisionFloor(
        SaturatingSub(b.cells.value, emitted), perRow, Min(SaturatingSub(b.cells.value, emitted) / perRow, available));
      Min(SaturatingSub(b.cells.value, emitted) / perRow, available)
  }

  lemma DivisionFloor(a: nat, d: nat, n: nat)
    requires d > 0 && n <= a / d
    ensures n * d <= a
  {
    assert n * d <= (a / d) * d;
  }

  /** More rows never encode shorter. */
  ghost predicate Monotone(b: Budget, existing: seq<Block>, build: nat -> Block, most: nat) {
    forall m, n | 1 <= m <= n <= most && Fits(b, existing + [build(n)]) :: Fits(b, existing + [build(m)])
  }

  predicate FirstRowFits(b: Budget, available: nat, perRow: nat, build: nat -> Block) {
    available == 0 || ((b.cells.Some? ==> perRow <= b.cells.value) && Fits(b, [build(1)]))
  }

  /**
    The binary search. Safe and never needlessly empty for any encoding; the largest fitting count
    for an encoding that grows with its rows.
   */
  method DecideRows(b: Budget, available: nat, perRow: nat, emitted: nat, existing: seq<Block>, build: nat -> Block)
    returns (rows: nat, firstRowFits: bool)
    ensures rows <= CellLimit(b, available, perRow, emitted)
    ensures rows > 0 ==> Fits(b, existing + [build(rows)])
    ensures rows == 0 && CellLimit(b, available, perRow, emitted) > 0 ==> !Fits(b, existing + [build(1)])
    ensures b.cells.Some? && emitted <= b.cells.value ==> emitted + rows * perRow <= b.cells.value
    ensures Monotone(b, existing, build, available) ==>
      forall n | rows < n <= available ::
        (b.cells.Some? && emitted + n * perRow > b.cells.value) || !Fits(b, existing + [build(n)])
    ensures firstRowFits <==> FirstRowFits(b, available, perRow, build)
  {
    var low, high := 0, CellLimit(b, available, perRow, emitted);
    while low < high
      invariant 0 <= low <= high <= CellLimit(b, available, perRow, emitted)
      invariant low > 0 ==> Fits(b, existing + [build(low)])
      invariant high < CellLimit(b, available, perRow, emitted) ==> !Fits(b, existing + [build(high + 1)])
    {
      var mid := (low + high + 1) / 2;
      if Fits(b, existing + [build(mid)]) {
        low := mid;
      } else {
        high := mid - 1;
      }
    }
    rows, firstRowFits := low, FirstRowFits(b, available, perRow, build);
    ChosenCellsFit(b, available, perRow, emitted, rows);
    forall n | rows < n <= available && Monotone(b, existing, build, available)
      ensures (b.cells.Some? && emitted + n * perRow > b.cells.value) || !Fits(b, existing + [build(n)])
    {
      if n > CellLimit(b, available, perRow, emitted) {
        LimitIsTight(b, available, perRow, emitted, n);
      }
    }
  }

  /** Within the available rows, only the cell budget holds the limit down. */
  lemma LimitIsTight(b: Budget, available: nat, perRow: nat, emitted: nat, n: nat)
    requires CellLimit(b, available, perRow, emitted) < n <= available
    ensures b.cells.Some? && emitted + n * perRow > b.cells.value
  {
    var left := SaturatingSub(b.cells.value, emitted);
    if n * perRow <= left {
      QuotientBounds(left, perRow, n);
    }
  }

  lemma QuotientBounds(a: nat, d: nat, n: nat)
    requires d > 0 && n * d <= a
    ensures n <= a / d
  {
    var q := a / d;
    assert a < (q + 1) * d by {
      assert a == q * d + a % d;
    }
    ProductsGrow(q + 1, n, d);
  }

  lemma ProductsGrow(m: nat, n: nat, d: nat)
    ensures m <= n ==> m * d <= n * d
  {
  }

  lemma ChosenCellsFit(b: Budget, available: nat, perRow: nat, emitted: nat, rows: nat)
    requires rows <= CellLimit(b, available, perRow, emitted)
    ensures b.cells.Some? && emitted <= b.cells.value ==> emitted + rows * perRow <= b.cells.value
  {
    var n := CellLimit(b, available, perRow, emitted);
    assert rows * perRow <= n * perRow;
  }

  /** With nothing emitted yet, no rows are chosen only if there are none or one alone cannot fit. */
  lemma EmptyDecisionMeansNoFit(b: Budget, available: nat, perRow: nat, existing: seq<Block>, build: nat -> Block)
    requires perRow > 0 && existing == [] && available > 0
    requires CellLimit(b, available, perRow, 0) > 0 ==> !Fits(b, existing + [build(1)])
    ensures !FirstRowFits(b, available, perRow, build)
  {
    assert existing + [build(1)] == [build(1)];
    if b.cells.Some? && perRow <= b.cells.value {
      assert b.cells.value / perRow >= 1;
    }
  }

  // ---- what is wanted ----

  /** A run of rows of one range, as (range, row) pairs. */
  function Rows(index: nat, first: nat, end: nat): (r: seq<(nat, nat)>)
    ensures |r| == if first < end then end - first else 0
    ensures forall k | 0 <= k < |r| :: r[k] == (index, first + k)
  {
    if first < end then seq(end - first, k requires 0 <= k < end - first => (index, first + k)) else []
  }

  /** Everything from a position on: the rest of its range, then every later range. */
  function From(ranges: seq<string>, index: nat, row: nat): seq<(nat, nat)>
    decreases |ranges| - index, 0
  {
    if index >= |ranges| || RectOf(ranges[index]).None? then []
    else Rows(index, row, RectOf(ranges[index]).value.r2 + 1) + Whole(ranges, index + 1)
  }

  function Whole(ranges: seq<string>, index: nat): seq<(nat, nat)>
    decreases |ranges| - index, 1
  {
    if index >= |ranges| || RectOf(ranges[index]).None? then [] else From(ranges, index, RectOf(ranges[index]).value.r1)
  }

  function Emitted(blocks: seq<Block>): seq<(nat, nat)> {
    if blocks == [] then []
    else
      var last := blocks[|blocks| - 1];
      Emitted(blocks[..|blocks| - 1]) + Rows(last.index, last.range.r1, last.range.r2 + 1)
  }

  function Cells(blocks: seq<Block>): nat {
    if blocks == [] then 0
    else
      var last := blocks[|blocks| - 1];
      Cells(blocks[..|blocks| - 1]) + |Rows(last.index, last.range.r1, last.range.r2 + 1)| * last.columns
  }

  function Rest(ranges: seq<string>, next: Option<Cursor>): seq<(nat, nat)> {
    match next
    case None => []
    case Some(c) => From(ranges, c.index, c.row)
  }

  /** A cursor some page hands back: inside its range. */
  predicate Inside(ranges: seq<string>, c: Cursor) {
    && c.index < |ranges| && RectOf(ranges[c.index]).Some?
    && RectOf(ranges[c.index]).value.r1 <= c.row <= RectOf(ranges[c.index]).value.r2
  }

  predicate Parsed(ranges: seq<string>) {
    forall i | 0 <= i < |ranges| :: RectOf(ranges[i]).Some?
  }

  /** The last row of every range is below the largest 32-bit number. */
  predicate Reachable(ranges: seq<string>) {
    forall i | 0 <= i < |ranges| && RectOf(ranges[i]).Some? :: RectOf(ranges[i]).value.r2 < U32_MAX
  }

  // ---- one page ----

  datatype Page = Page(blocks: seq<Block>, rows: nat, cells: nat, next: Option<Cursor>)

  datatype PageError = NoRanges | BadRange(index: nat) | RowExceedsBudget(index: nat, row: nat)

  datatype Outcome = Read(page: Page) | Failed(error: PageError)

  function SaturatingAdd(a: nat, b: nat): nat {
    Min(a + b, U32_MAX)
  }

  function BlockOf(index: nat, r: Rect, first: nat, count: nat): Block {
    Block(index, Rect(r.c1, first, r.c2, SaturatingSub(first + count, 1)), SaturatingSub(r.c2 + 1, r.c1))
  }

  /** A row that fits no page, however empty. */
  predicate RowAloneFails(b: Budget, r: Rect, index: nat, row: nat) {
    (b.cells.Some? && SaturatingSub(r.c2 + 1, r.c1) > b.cells.value) || !Fits(b, [BlockOf(index, r, row, 1)])
  }

  function PageSize(asked: nat): (n: nat)
    ensures 1 <= n <= 500 && (1 <= asked <= 500 ==> n == asked) && (asked > 500 ==> n == 500)
  {
    if asked < 1 then 1 else Min(asked, 500)
  }

  function Wanted(ranges: seq<string>, cursor: Option<Cursor>): seq<(nat, nat)> {
    match cursor
    case None => Whole(ranges, 0)
    case Some(c) => From(ranges, c.index, c.row)
  }

  /** Blocks never repeat a column or a row outside the range they answer. */
  ghost predicate OfRanges(ranges: seq<string>, blocks: seq<Block>) {
    forall k | 0 <= k < |blocks| ::
      && blocks[k].index < |ranges| && RectOf(ranges[blocks[k].index]).Some?
      && var r := RectOf(ranges[blocks[k].index]).value;
         blocks[k].range.c1 == r.c1 && blocks[k].range.c2 == r.c2 && blocks[k].columns == r.c2 - r.c1 + 1
         && blocks[k].range.r1 <= blocks[k].range.r2 <= r.r2 && blocks[k].range.r2 < U32_MAX
  }

  ghost predicate WithinBudget(b: Budget, p: Page) {
    && p.rows == |Emitted(p.blocks)| && p.cells == Cells(p.blocks)
    && (b.cells.Some? ==> p.cells <= b.cells.value)
    && (b.bytes.Some? && p.blocks != [] ==> b.size(p.blocks) <= b.bytes.value)
  }

  function Grown(blocks: seq<Block>, index: nat, r: Rect, first: nat, count: nat): seq<Block> {
    blocks + [BlockOf(index, r, first, count)]
  }

  /** Whatever stands before it, a block of more rows never encodes shorter. */
  ghost predicate MonotoneSizes(b: Budget) {
    forall blocks, index, r, first, m, n | 1 <= m <= n ::
      b.size(Grown(blocks, index, r, first, m)) <= b.size(Grown(blocks, index, r, first, n))
  }

  /** The page's blocks with the row at the cursor as well. */
  function OneMore(blocks: seq<Block>, c: Cursor, r: Rect): seq<Block> {
    if blocks != [] && blocks[|blocks| - 1].index == c.index then
      var first := blocks[|blocks| - 1].range.r1;
      Grown(blocks[..|blocks| - 1], c.index, r, first, SaturatingSub(c.row + 1, first))
    else Grown(blocks, c.index, r, c.row, 1)
  }

  /** A page stops short of the end only at its row limit, at the largest row, or where one row more breaks a budget. */
  ghost predicate IsFull(ranges: seq<string>, asked: nat, b: Budget, p: Page) {
    p.next.Some? && p.next.value.row < U32_MAX && MonotoneSizes(b) ==>
      var c := p.next.value;
      && c.index < |ranges| && RectOf(ranges[c.index]).Some?
      && var r := RectOf(ranges[c.index]).value;
         || p.rows == PageSize(asked)
         || (b.cells.Some? && p.cells + (r.c2 + 1 - r.c1) > b.cells.value)
         || (b.bytes.Some? && b.size(OneMore(p.blocks, c, r)) > b.bytes.value)
  }

  lemma MonotoneBuilds(
    b: Budget, blocks: seq<Block>, index: nat, r: Rect, first: nat, build: nat -> Block, available: nat)
    requires MonotoneSizes(b) && forall n :: build(n) == BlockOf(index, r, first, n)
    ensures Monotone(b, blocks, build, available)
  {
    forall m, n | 1 <= m <= n <= available && Fits(b, blocks + [build(n)]) ensures Fits(b, blocks + [build(m)]) {
      assert b.size(Grown(blocks, index, r, first, m)) <= b.size(Grown(blocks, index, r, first, n));
    }
  }

  /** What any page is: a stretch of what was wanted, within budget, with the rest behind its cursor. */
  ghost predicate IsPage(ranges: seq<string>, cursor: Option<Cursor>, asked: nat, b: Budget, p: Page) {
    && Emitted(p.blocks) + Rest(ranges, p.next) == Wanted(ranges, cursor)
    && OfRanges(ranges, p.blocks) && WithinBudget(b, p) && p.rows <= PageSize(asked) && IsFull(ranges, asked, b, p)
    && ((cursor.Some? ==> Inside(ranges, cursor.value)) && p.next.Some? ==> Inside(ranges, p.next.value))
    && (Reachable(ranges) && Wanted(ranges, cursor) != [] ==> p.rows > 0)
  }

  lemma EmitOne(blocks: seq<Block>, block: Block)
    ensures Emitted(blocks + [block]) == Emitted(blocks) + Rows(block.index, block.range.r1, block.range.r2 + 1)
    ensures Cells(blocks + [block])
      == Cells(blocks) + |Rows(block.index, block.range.r1, block.range.r2 + 1)| * block.columns
  {
    assert (blocks + [block])[..|blocks|] == blocks;
  }

  lemma NothingEmitted()
    ensures Emitted([]) == [] && Cells([]) == 0
  {
  }

  lemma RowsSplit(index: nat, first: nat, mid: nat, end: nat)
    requires first <= mid <= end
    ensures Rows(index, first, end) == Rows(index, first, mid) + Rows(index, mid, end)
  {
  }

  /** Where reading of one range starts: at the cursor in the cursor's own range, else at its first row. */
  function StartRow(cursor: Option<Cursor>, index: nat, r: Rect): nat {
    if cursor.Some? && cursor.value.index == index then cursor.value.row else r.r1
  }

  /** What is still wanted when reading comes to a range. */
  function Ahead(ranges: seq<string>, cursor: Option<Cursor>, index: nat): seq<(nat, nat)> {
    if index < |ranges| && RectOf(ranges[index]).Some?
    then From(ranges, index, StartRow(cursor, index, RectOf(ranges[index]).value))
    else []
  }

  /** The rows read ahead of the decision: no more than the page still wants. */
  function CandidateEnd(r: Rect, first: nat, remaining: nat): nat {
    Min(r.r2, SaturatingSub(SaturatingAdd(first, remaining), 1))
  }

  function Available(r: Rect, first: nat, remaining: nat): nat {
    SaturatingSub(CandidateEnd(r, first, remaining) + 1, first)
  }

  lemma AvailableRows(r: Rect, first: nat, remaining: nat)
    requires first <= r.r2 <= U32_MAX && remaining > 0
    ensures Available(r, first, remaining) <= remaining
    ensures first + Available(r, first, remaining) <= r.r2 + 1 && first + Available(r, first, remaining) <= U32_MAX
    ensures Available(r, first, remaining) == 0 <==> first == U32_MAX
    ensures Available(r, first, remaining) < remaining ==>
      first + Available(r, first, remaining) == r.r2 + 1 || first + Available(r, first, remaining) == U32_MAX
  {
  }

  function CellsOf(rows: nat, perRow: nat): nat {
    rows * perRow
  }

  lemma NoRowsNoCells(perRow: nat)
    ensures CellsOf(0, perRow) == 0
  {
  }

  lemma BlockEmits(blocks: seq<Block>, index: nat, r: Rect, first: nat, count: nat)
    requires 1 <= r.c1 <= r.c2 && count > 0
    ensures
      var block := BlockOf(index, r, first, count);
      && Emitted(blocks + [block]) == Emitted(blocks) + Rows(index, first, first + count)
      && Cells(blocks + [block]) == Cells(blocks) + CellsOf(count, r.c2 + 1 - r.c1)
  {
    hide Emitted, Cells;
    EmitOne(blocks, BlockOf(index, r, first, count));
  }

  lemma BlockIsOfRange(ranges: seq<string>, blocks: seq<Block>, index: nat, r: Rect, first: nat, count: nat)
    requires index < |ranges| && RectOf(ranges[index]) == Some(r) && OfRanges(ranges, blocks)
    requires 1 <= r.c1 <= r.c2
    requires count > 0 && first + count <= r.r2 + 1 && first + count <= U32_MAX
    ensures OfRanges(ranges, blocks + [BlockOf(index, r, first, count)])
  {
    hide RectOf;
  }

  /** A block of chosen rows joins the page. */
  lemma BlockJoins(
    ranges: seq<string>, b: Budget, blocks: seq<Block>, index: nat, r: Rect, first: nat, count: nat)
    requires index < |ranges| && RectOf(ranges[index]) == Some(r) && OfRanges(ranges, blocks)
    requires 1 <= r.c1 <= r.c2
    requires count > 0 && first + count <= r.r2 + 1 && first + count <= U32_MAX
    ensures
      var block := BlockOf(index, r, first, count);
      && OfRanges(ranges, blocks + [block])
      && Emitted(blocks + [block]) + From(ranges, index, first + count) == Emitted(blocks) + From(ranges, index, first)
      && |Emitted(blocks + [block])| == |Emitted(blocks)| + count
      && Cells(blocks + [block]) == Cells(blocks) + CellsOf(count, r.c2 + 1 - r.c1)
  {
    hide RectOf, Emitted, Cells, Whole, CellsOf, Rows, BlockOf, OfRanges;
    BlockIsOfRange(ranges, blocks, index, r, first, count);
    BlockEmits(blocks, index, r, first, count);
    RowsSplit(index, first, first + count, r.r2 + 1);
    var head, mid, tail := Rows(index, first, first + count), Rows(index, first + count, r.r2 + 1),
      Whole(ranges, index + 1);
    Regroup(Emitted(blocks), head, mid + tail);
    Regroup(head, mid, tail);
  }

  /** A range that is finished, or never begun because the cursor is past it, leaves the next one ahead. */
  lemma AheadOfNext(ranges: seq<string>, cursor: Option<Cursor>, index: nat, row: nat)
    requires index < |ranges| && RectOf(ranges[index]).Some? && row > RectOf(ranges[index]).value.r2
    requires cursor.Some? ==> cursor.value.index <= index
    ensures From(ranges, index, row) == Ahead(ranges, cursor, index + 1)
  {
    hide RectOf;
  }

  lemma AheadAtStart(ranges: seq<string>, cursor: Option<Cursor>)
    requires ranges != []
    ensures Ahead(ranges, cursor, if cursor.Some? then cursor.value.index else 0) == Wanted(ranges, cursor)
  {
    hide RectOf;
  }

  /** A cursor on a row no page can reach. */
  predicate Stuck(ranges: seq<string>, cursor: Option<Cursor>) {
    cursor.Some? && Inside(ranges, cursor.value) && cursor.value.row == U32_MAX
  }

  /** The state of a page under construction, when it comes to a range. */
  ghost predicate InProgress(
    ranges: seq<string>, cursor: Option<Cursor>, b: Budget, p: Page, index: nat)
  {
    && p.next.None?
    && Emitted(p.blocks) + Ahead(ranges, cursor, index) == Wanted(ranges, cursor)
    && OfRanges(ranges, p.blocks) && WithinBudget(b, p) && (p.rows == 0 ==> p.blocks == [])
    && forall k | 0 <= k < |p.blocks| :: p.blocks[k].index < index
  }

  lemma NextRowBreaks(
    b: Budget, cells: nat, perRow: nat, blocks: seq<Block>, index: nat, r: Rect, first: nat, build: nat -> Block,
    rows: nat)
    requires build(rows + 1) == BlockOf(index, r, first, rows + 1)
    requires
      (b.cells.Some? && cells + (rows + 1) * perRow > b.cells.value) || !Fits(b, blocks + [build(rows + 1)])
    ensures
      || (b.cells.Some? && cells + rows * perRow + perRow > b.cells.value)
      || (b.bytes.Some? && b.size(Grown(blocks, index, r, first, rows + 1)) > b.bytes.value)
  {
  }

  lemma StopsFull(
    ranges: seq<string>, asked: nat, b: Budget, blocks: seq<Block>, p: Page, index: nat, r: Rect, first: nat, rows: nat)
    requires index < |ranges| && RectOf(ranges[index]) == Some(r)
    requires forall k | 0 <= k < |blocks| :: blocks[k].index < index
    requires p.blocks == if rows == 0 then blocks else blocks + [BlockOf(index, r, first, rows)]
    requires p.next == Some(Cursor(index, first + rows))
    requires MonotoneSizes(b) && first + rows < U32_MAX ==>
      || p.rows == PageSize(asked)
      || (b.cells.Some? && p.cells + (r.c2 + 1 - r.c1) > b.cells.value)
      || (b.bytes.Some? && b.size(Grown(blocks, index, r, first, rows + 1)) > b.bytes.value)
    ensures IsFull(ranges, asked, b, p)
  {
    hide RectOf, MonotoneSizes;
    if rows > 0 {
      assert p.blocks[..|p.blocks| - 1] == blocks;
    }
  }

  /** The same in the middle of a range, with its rows from `row` on still ahead. */
  ghost predicate Pending(ranges: seq<string>, cursor: Option<Cursor>, b: Budget, p: Page, index: nat, row: nat) {
    && p.next.None?
    && Emitted(p.blocks) + From(ranges, index, row) == Wanted(ranges, cursor)
    && OfRanges(ranges, p.blocks) && WithinBudget(b, p) && (p.rows == 0 ==> p.blocks == [])
    && forall k | 0 <= k < |p.blocks| :: p.blocks[k].index <= index
  }

  lemma RangeBegins(ranges: seq<string>, cursor: Option<Cursor>, b: Budget, p: Page, index: nat, r: Rect)
    requires InProgress(ranges, cursor, b, p, index) && index < |ranges| && RectOf(ranges[index]) == Some(r)
    ensures Pending(ranges, cursor, b, p, index, StartRow(cursor, index, r))
    ensures forall k | 0 <= k < |p.blocks| :: p.blocks[k].index < index
  {
    hide RectOf, From, Wanted, OfRanges, Emitted, Cells;
  }

  lemma BlockOfIndex(index: nat, r: Rect, first: nat, rows: nat)
    ensures BlockOf(index, r, first, rows).index == index
  {
  }

  lemma RowsJoin(
    ranges: seq<string>, cursor: Option<Cursor>, b: Budget, p: Page, index: nat, r: Rect, perRow: nat, first: nat,
    rows: nat)
    requires Pending(ranges, cursor, b, p, index, first) && index < |ranges| && RectOf(ranges[index]) == Some(r)
    requires 1 <= r.c1 <= r.c2 && rows > 0 && first + rows <= r.r2 + 1 && first + rows <= U32_MAX
    requires perRow == r.c2 + 1 - r.c1
    requires b.cells.Some? ==> p.cells + CellsOf(rows, perRow) <= b.cells.value
    requires Fits(b, p.blocks + [BlockOf(index, r, first, rows)])
    ensures
      var page := Page(
        p.blocks + [BlockOf(index, r, first, rows)], p.rows + rows, p.cells + CellsOf(rows, perRow), None);
      Pending(ranges, cursor, b, page, index, first + rows)
  {
    hide RectOf, From, Wanted, OfRanges, Emitted, Cells, CellsOf, BlockOf;
    BlockJoins(ranges, b, p.blocks, index, r, first, rows);
    assert (p.blocks + [BlockOf(index, r, first, rows)])[|p.blocks|].index == index by {
      BlockOfIndex(index, r, first, rows);
    }
  }

  lemma PageEnds(
    ranges: seq<string>, cursor: Option<Cursor>, asked: nat, b: Budget, p: Page, index: nat, r: Rect, row: nat)
    requires Pending(ranges, cursor, b, p, index, row) && index < |ranges| && RectOf(ranges[index]) == Some(r)
    requires StartRow(cursor, index, r) <= row <= r.r2
    requires p.rows <= PageSize(asked) && IsFull(ranges, asked, b, p.(next := Some(Cursor(index, row))))
    requires p.rows > 0 || row == U32_MAX
    ensures IsPage(ranges, cursor, asked, b, p.(next := Some(Cursor(index, row))))
  {
    hide RectOf, From, Wanted, OfRanges, Emitted, Cells, IsFull;
  }

  lemma RangeEnds(ranges: seq<string>, cursor: Option<Cursor>, b: Budget, p: Page, index: nat, row: nat)
    requires Pending(ranges, cursor, b, p, index, row) && index < |ranges| && RectOf(ranges[index]).Some?
    requires row > RectOf(ranges[index]).value.r2 && (cursor.Some? ==> cursor.value.index <= index)
    ensures InProgress(ranges, cursor, b, p, index + 1)
  {
    AheadOfNext(ranges, cursor, index, row);
    hide RectOf, From, Wanted, OfRanges, Emitted, Cells, Ahead;
  }

  /** How many rows of a range the page takes from `first` on. */
  method ChooseRows(
    b: Budget, cells: nat, blocks: seq<Block>, index: nat, r: Rect, perRow: nat, first: nat, remaining: nat)
    returns (rows: nat, firstRowFits: bool)
    requires 1 <= r.c1 <= r.c2 && perRow == r.c2 + 1 - r.c1 && first <= r.r2 <= U32_MAX && remaining > 0
    requires (b.cells.Some? ==> cells <= b.cells.value) && (blocks == [] ==> cells == 0)
    ensures rows <= remaining && first + rows <= r.r2 + 1 && first + rows <= U32_MAX
    ensures b.cells.Some? ==> cells + CellsOf(rows, perRow) <= b.cells.value
    ensures rows > 0 ==> Fits(b, blocks + [BlockOf(index, r, first, rows)])
    ensures !firstRowFits ==> RowAloneFails(b, r, index, first)
    ensures first == U32_MAX ==> firstRowFits
    ensures rows == 0 && firstRowFits && blocks == [] ==> first == U32_MAX
    ensures MonotoneSizes(b) && first + rows < U32_MAX && first + rows <= r.r2 ==>
      || rows == remaining
      || (b.cells.Some? && cells + CellsOf(rows, perRow) + perRow > b.cells.value)
      || (b.bytes.Some? && b.size(Grown(blocks, index, r, first, rows + 1)) > b.bytes.value)
  {
    hide Fits, CellLimit, MonotoneSizes, Grown;
    var available := Available(r, first, remaining);
    AvailableRows(r, first, remaining);
    var build := (n: nat) => BlockOf(index, r, first, n);
    rows, firstRowFits := DecideRows(b, available, perRow, cells, blocks, build);
    if MonotoneSizes(b) && rows < available {
      MonotoneBuilds(b, blocks, index, r, first, build, available);
      NextRowBreaks(b, cells, perRow, blocks, index, r, first, build, rows);
    }
    if rows == 0 && blocks == [] && available > 0 {
      EmptyDecisionMeansNoFit(b, available, perRow, blocks, build);
    }
  }

  /** Reads as much of one range as fits; the flag says that the page ends here. */
  method ReadRange(ranges: seq<string>, cursor: Option<Cursor>, asked: nat, b: Budget, p: Page, index: nat, r: Rect)
    returns (o: Outcome, done: bool)
    requires index < |ranges| && RectOf(ranges[index]) == Some(r)
    requires cursor.Some? ==> cursor.value.index <= index
    requires InProgress(ranges, cursor, b, p, index) && p.rows < PageSize(asked)
    ensures o.Failed? ==>
      o.error.RowExceedsBudget? && o.error.index == index && o.error.row <= r.r2
        && RowAloneFails(b, r, index, o.error.row) && IsReached(ranges, cursor, asked, index, o.error.row)
    ensures o.Read? && !done ==> InProgress(ranges, cursor, b, o.page, index + 1) && o.page.rows <= PageSize(asked)
    ensures o.Read? && done ==> IsPage(ranges, cursor, asked, b, o.page)
    ensures Stuck(ranges, cursor) && cursor.value.index == index && p.blocks == [] ==>
      o == Read(Page([], 0, 0, cursor)) && done
  {
    hide RectOf, MonotoneSizes, IsFull, Grown, IsPage, RowAloneFails, Fits, PageSize, BlockOf, CellsOf;
    hide Pending, InProgress, IsReached;
    RectsAreUpright(ranges[index]);
    var first := StartRow(cursor, index, r);
    RangeBegins(ranges, cursor, b, p, index, r);
    NothingTaken(ranges, cursor, b, p, index);
    if first > r.r2 {
      RangeEnds(ranges, cursor, b, p, index, first);
      return Read(p), false;
    }
    var perRow, remaining := r.c2 + 1 - r.c1, PageSize(asked) - p.rows;
    var rows, firstRowFits := ChooseRows(b, p.cells, p.blocks, index, r, perRow, first, remaining);
    if rows == 0 {
      if !firstRowFits {
        NextIsReached(ranges, cursor, asked, b, p, index, r, first);
        return Failed(RowExceedsBudget(index, first)), true;
      }
      o := Read(p.(next := Some(Cursor(index, first))));
      NoRowsNoCells(perRow);
      StopsFull(ranges, asked, b, p.blocks, o.page, index, r, first, 0);
      PageEnds(ranges, cursor, asked, b, p, index, r, first);
      return o, true;
    }
    RowsJoin(ranges, cursor, b, p, index, r, perRow, first, rows);
    var page := Page(p.blocks + [BlockOf(index, r, first, rows)], p.rows + rows, p.cells + CellsOf(rows, perRow), None);
    var end := first + rows - 1;
    assert first + rows == end + 1;
    if end < r.r2 {
      o := Read(page.(next := Some(Cursor(index, end + 1))));
      StopsFull(ranges, asked, b, p.blocks, o.page, index, r, first, rows);
      PageEnds(ranges, cursor, asked, b, page, index, r, first + rows);
      return o, true;
    }
    RangeEnds(ranges, cursor, b, page, index, first + rows);
    return Read(page), false;
  }

  lemma NothingTaken(ranges: seq<string>, cursor: Option<Cursor>, b: Budget, p: Page, index: nat)
    requires InProgress(ranges, cursor, b, p, index)
    ensures p.next == None
    ensures p.blocks == [] <==> p.rows == 0
    ensures p.blocks == [] ==> p.cells == 0
    ensures b.cells.Some? ==> p.cells <= b.cells.value
  {
    NothingEmitted();
    hide Emitted, Cells, OfRanges, Ahead, Wanted;
  }

  lemma StartsEmpty(ranges: seq<string>, cursor: Option<Cursor>, b: Budget)
    requires ranges != []
    ensures InProgress(ranges, cursor, b, Page([], 0, 0, None), if cursor.Some? then cursor.value.index else 0)
  {
    hide RectOf;
    AheadAtStart(ranges, cursor);
    assert [] + Wanted(ranges, cursor) == Wanted(ranges, cursor);
  }

  lemma EndsComplete(ranges: seq<string>, cursor: Option<Cursor>, asked: nat, b: Budget, p: Page, index: nat)
    requires InProgress(ranges, cursor, b, p, index) && index >= |ranges| && p.rows <= PageSize(asked)
    ensures IsPage(ranges, cursor, asked, b, p)
  {
    hide RectOf, Emitted, Cells;
    EmptyIsNeutral(Emitted(p.blocks));
  }

  lemma EndsAtNext(ranges: seq<string>, cursor: Option<Cursor>, asked: nat, b: Budget, p: Page, index: nat, r: Rect)
    requires InProgress(ranges, cursor, b, p, index) && p.rows == PageSize(asked)
    requires index < |ranges| && RectOf(ranges[index]) == Some(r) && (cursor.Some? ==> cursor.value.index < index)
    ensures IsPage(ranges, cursor, asked, b, p.(next := Some(Cursor(index, r.r1))))
  {
    hide RectOf, Emitted, Cells;
    RectsAreUpright(ranges[index]);
  }

  /** The row is among those a page of the asked size is to hold. */
  ghost predicate IsReached(ranges: seq<string>, cursor: Option<Cursor>, asked: nat, index: nat, row: nat) {
    exists k | 0 <= k < |Wanted(ranges, cursor)| && k < PageSize(asked) :: Wanted(ranges, cursor)[k] == (index, row)
  }

  lemma NextIsReached(
    ranges: seq<string>, cursor: Option<Cursor>, asked: nat, b: Budget, p: Page, index: nat, r: Rect, row: nat)
    requires Pending(ranges, cursor, b, p, index, row) && index < |ranges| && RectOf(ranges[index]) == Some(r)
    requires row <= r.r2 && p.rows < PageSize(asked)
    ensures IsReached(ranges, cursor, asked, index, row)
  {
    hide RectOf, Emitted, Wanted, Whole, OfRanges, Cells;
    assert From(ranges, index, row)[0] == (index, row);
    assert Wanted(ranges, cursor)[p.rows] == (index, row);
  }

  /** A malformed range ends what is wanted, so coming to it means that all before it is read. */
  lemma BadRangeIsReached(
    ranges: seq<string>, cursor: Option<Cursor>, asked: nat, b: Budget, p: Page, index: nat)
    requires InProgress(ranges, cursor, b, p, index) && index < |ranges| && RectOf(ranges[index]).None?
    requires p.rows <= PageSize(asked)
    ensures |Wanted(ranges, cursor)| <= PageSize(asked)
  {
    hide RectOf, Emitted, Wanted, OfRanges, Cells;
  }

  method ReadPage(ranges: seq<string>, cursor: Option<Cursor>, asked: nat, b: Budget) returns (o: Outcome)
    ensures o.Read? ==> IsPage(ranges, cursor, asked, b, o.page)
    ensures o.Failed? ==>
      match o.error
      case NoRanges => ranges == []
      case BadRange(i) => i < |ranges| && RectOf(ranges[i]).None? && |Wanted(ranges, cursor)| <= PageSize(asked)
      case RowExceedsBudget(i, row) =>
        && i < |ranges| && RectOf(ranges[i]).Some? && row <= RectOf(ranges[i]).value.r2
        && IsReached(ranges, cursor, asked, i, row)
        && var r := RectOf(ranges[i]).value;
           || (b.cells.Some? && r.c2 + 1 > r.c1 + b.cells.value)
           || (b.bytes.Some? && b.size([BlockOf(i, r, row, 1)]) > b.bytes.value)
    ensures ranges != [] && Stuck(ranges, cursor) ==> o == Read(Page([], 0, 0, cursor))
  {
    hide RectOf, InProgress, IsPage, IsReached;
    var requested := PageSize(asked);
    if ranges == [] {
      return Failed(NoRanges);
    }
    var page := Page([], 0, 0, None);
    var index := if cursor.Some? then cursor.value.index else 0;
    ghost var start := index;
    StartsEmpty(ranges, cursor, b);
    while index < |ranges|
      invariant start <= index && page.rows <= requested && (page.rows == requested ==> index == |ranges|)
      invariant InProgress(ranges, cursor, b, page, index)
      invariant Stuck(ranges, cursor) ==> index == start && page == Page([], 0, 0, None)
    {
      if page.rows >= requested {
        break;
      }
      var parsed := ParseRange(ranges[index]);
      if parsed.None? {
        BadRangeIsReached(ranges, cursor, asked, b, page, index);
        return Failed(BadRange(index));
      }
      var read, done := ReadRange(ranges, cursor, asked, b, page, index, parsed.value);
      if read.Failed? || done {
        return read;
      }
      page := read.page;
      if index + 1 < |ranges| && page.rows >= requested {
        var next := ParseRange(ranges[index + 1]);
        if next.None? {
          BadRangeIsReached(ranges, cursor, asked, b, page, index + 1);
          return Failed(BadRange(index + 1));
        }
        EndsAtNext(ranges, cursor, asked, b, page, index + 1, next.value);
        return Read(page.(next := Some(Cursor(index + 1, next.value.r1))));
      }
      index := index + 1;
    }
    EndsComplete(ranges, cursor, asked, b, page, index);
    return Read(page);
  }

  // ---- whole walks ----

  datatype Call = Call(asked: nat, budget: Budget)

  /** Pages that follow one another's cursors. */
  ghost predicate IsWalk(ranges: seq<string>, cursor: Option<Cursor>, calls: seq<Call>, pages: seq<Page>)
    decreases |pages|
  {
    && |calls| == |pages|
    && (pages != [] ==>
          && IsPage(ranges, cursor, calls[0].asked, calls[0].budget, pages[0])
          && if pages[0].next.None? then |pages| == 1 else IsWalk(ranges, pages[0].next, calls[1..], pages[1..]))
  }

  function Collected(pages: seq<Page>): seq<(nat, nat)>
    decreases |pages|
  {
    if pages == [] then [] else Emitted(pages[0].blocks) + Collected(pages[1..])
  }

  /** However the pages are sized, what they hold and what is still behind the last cursor is what was wanted. */
  lemma {:induction false} WalkCoversExactlyOnce(
    ranges: seq<string>, cursor: Option<Cursor>, calls: seq<Call>, pages: seq<Page>)
    requires IsWalk(ranges, cursor, calls, pages) && pages != []
    ensures Collected(pages) + Rest(ranges, pages[|pages| - 1].next) == Wanted(ranges, cursor)
    ensures pages[|pages| - 1].next.None? ==> Collected(pages) == Wanted(ranges, cursor)
    decreases |pages|
  {
    hide RectOf, Emitted, From, Whole, WithinBudget, OfRanges, Inside, Reachable;
    var last := pages[|pages| - 1];
    if |pages| > 1 {
      assert pages[1..][|pages[1..]| - 1] == last;
      WalkCoversExactlyOnce(ranges, pages[0].next, calls[1..], pages[1..]);
      hide IsWalk;
      Regroup(Emitted(pages[0].blocks), Collected(pages[1..]), Rest(ranges, last.next));
    } else {
      assert Collected(pages) == Emitted(pages[0].blocks) + [];
      Regroup(Emitted(pages[0].blocks), [], Rest(ranges, last.next));
      assert [] + Rest(ranges, last.next) == Rest(ranges, last.next);
    }
    EmptyIsNeutral(Collected(pages));
  }

  lemma InsideIsWanted(ranges: seq<string>, c: Cursor)
    requires Inside(ranges, c)
    ensures From(ranges, c.index, c.row) != []
  {
  }

  /** A walk never runs longer than it has rows to read, and has fewer pages while there is a cursor to follow. */
  lemma {:induction false} WalksEnd(ranges: seq<string>, cursor: Option<Cursor>, calls: seq<Call>, pages: seq<Page>)
    requires IsWalk(ranges, cursor, calls, pages)
    requires Reachable(ranges) && Wanted(ranges, cursor) != []
    requires cursor.Some? ==> Inside(ranges, cursor.value)
    ensures |pages| <= |Wanted(ranges, cursor)|
    ensures pages != [] && pages[|pages| - 1].next.Some? ==> |pages| < |Wanted(ranges, cursor)|
    decreases |pages|
  {
    hide RectOf, From, Whole, OfRanges, Emitted, Reachable, Inside;
    if pages != [] && pages[0].next.Some? {
      InsideIsWanted(ranges, pages[0].next.value);
    }
    if |pages| > 1 {
      assert pages[1..][|pages[1..]| - 1] == pages[|pages| - 1];
      WalksEnd(ranges, pages[0].next, calls[1..], pages[1..]);
    }
  }

  lemma {:induction false} EmittedBelowMax(ranges: seq<string>, blocks: seq<Block>, x: (nat, nat))
    requires OfRanges(ranges, blocks) && x in Emitted(blocks)
    ensures x.1 < U32_MAX
  {
    hide RectOf;
    var last := blocks[|blocks| - 1];
    if x in Emitted(blocks[..|blocks| - 1]) {
      EmittedBelowMax(ranges, blocks[..|blocks| - 1], x);
    } else {
      assert x in Rows(last.index, last.range.r1, last.range.r2 + 1);
    }
  }

  lemma {:induction false} CollectedBelowMax(
    ranges: seq<string>, cursor: Option<Cursor>, calls: seq<Call>, pages: seq<Page>, x: (nat, nat))
    requires IsWalk(ranges, cursor, calls, pages) && x in Collected(pages)
    ensures x.1 < U32_MAX
    decreases |pages|
  {
    hide RectOf, OfRanges, WithinBudget, Emitted;
    if x in Emitted(pages[0].blocks) {
      EmittedBelowMax(ranges, pages[0].blocks, x);
    } else {
      CollectedBelowMax(ranges, pages[0].next, calls[1..], pages[1..], x);
    }
  }

  lemma {:induction false} LastRowsAreWanted(ranges: seq<string>, start: nat, index: nat)
    requires Parsed(ranges) && start <= index < |ranges|
    ensures (index, RectOf(ranges[index]).value.r2) in Whole(ranges, start)
    decreases |ranges| - start
  {
    hide RectOf;
    RectsAreUpright(ranges[start]);
    var r := RectOf(ranges[start]).value;
    if start == index {
      assert Rows(start, r.r1, r.r2 + 1)[r.r2 - r.r1] == (index, r.r2);
    } else {
      LastRowsAreWanted(ranges, start + 1, index);
    }
  }

  /** A walk can come to its end only if no range runs to the largest 32-bit row. */
  lemma CompleteWalksNeedReachableRows(ranges: seq<string>, calls: seq<Call>, pages: seq<Page>)
    requires Parsed(ranges) && IsWalk(ranges, None, calls, pages)
    requires pages != [] && pages[|pages| - 1].next.None?
    ensures Reachable(ranges)
  {
    hide RectOf, IsWalk, Whole, Collected;
    WalkCoversExactlyOnce(ranges, None, calls, pages);
    forall i | 0 <= i < |ranges| ensures RectOf(ranges[i]).value.r2 < U32_MAX {
      LastRowsAreWanted(ranges, 0, i);
      CollectedBelowMax(ranges, None, calls, pages, (i, RectOf(ranges[i]).value.r2));
    }
  }

  lemma WholeIsWanted(ranges: seq<string>)
    requires Parsed(ranges) && ranges != []
    ensures Whole(ranges, 0) != []
  {
    hide RectOf;
    RectsAreUpright(ranges[0]);
  }

  /**
    A walk from the start that nothing stops, followed until it ends or has a page for every row,
    ends if and only if no range runs to the largest 32-bit row.
   */
  lemma WalkCompletesIffReachable(ranges: seq<string>, calls: seq<Call>, pages: seq<Page>)
    requires Parsed(ranges) && ranges != [] && IsWalk(ranges, None, calls, pages)
    requires pages != [] && (pages[|pages| - 1].next.None? || |pages| >= |Whole(ranges, 0)|)
    ensures pages[|pages| - 1].next.None? <==> Reachable(ranges)
  {
    hide RectOf, IsWalk, Whole;
    if pages[|pages| - 1].next.None? {
      CompleteWalksNeedReachableRows(ranges, calls, pages);
    }
    if Reachable(ranges) {
      WholeIsWanted(ranges);
      WalksEnd(ranges, None, calls, pages);
    }
  }

  /** The text of one cell is a range as well. */
  lemma CellIsRange(column: nat, row: nat)
    requires 1 <= column <= U32_MAX && 1 <= row <= U32_MAX
    ensures RectOf(CellText(column, row)) == Some(Rect(column, row, column, row))
  {
    hide CellOf, CellText;
    PlainCell(column, row);
    CellRoundTrip(column, row);
    NoSheet(CellText(column, row));
  }

  /** The single cell in the largest row is readable as a range, and no walk over it ends. */
  lemma LargestRowIsUnreachable()
    ensures
      var ranges := ["A4294967295"];
      Parsed(ranges) && RectOf(ranges[0]) == Some(Rect(1, U32_MAX, 1, U32_MAX)) && !Reachable(ranges)
  {
    hide RectOf, CellText;
    LargestRowText();
    CellIsRange(1, U32_MAX);
  }

  lemma NextDigit(n: nat, d: nat)
    requires n > 0 && d < 10
    ensures DecimalText(10 * n + d) == DecimalText(n) + [DigitOf(d)]
  {
    assert (10 * n + d) / 10 == n && (10 * n + d) % 10 == d;
  }

  lemma FirstColumn()
    ensures ColumnText(1) == "A"
  {
  }

  lemma LargestRowText()
    ensures CellText(1, U32_MAX) == "A4294967295"
  {
    FirstColumn();
    FirstDigits();
    hide DecimalText, ColumnText;
    NextDigit(42949, 6);
    NextDigit(429496, 7);
    NextDigit(4294967, 2);
    NextDigit(42949672, 9);
    NextDigit(429496729, 5);
    var first := DecimalText(42949);
    assert first + [DigitOf(6)] + [DigitOf(7)] + [DigitOf(2)] + [DigitOf(9)] + [DigitOf(5)] == first + "67295";
    assert "A" + ("42949" + "67295") == "A4294967295";
  }

  lemma FirstDigits()
    ensures DecimalText(42949) == "42949"
  {
    assert DecimalText(4) == ['4'];
    hide DecimalText;
    NextDigit(4, 2);
    NextDigit(42, 9);
    NextDigit(429, 4);
    NextDigit(4294, 9);
  }
}
