/**
  Preparing a resident transaction: what it would publish, report and stage, computed before
  anything is journalled.
 */
module Preparation {
  import opened Wrappers
  import opened Documents
  import opened Writes

  datatype Bundle = Bundle(base: Revision, atomic: bool, ops: seq<WriteOp>, title: Option<string>)

  datatype Prepared = Prepared(
    base: Doc, response: Response, publication: Publication,
    staged: Option<(Id, Bundle)>, consume: Option<Id>)

  /** What preparation reads of the session that owns the workbook. */
  datatype Owner = Owner(engine: Engine, resource: Id, base: Doc, doc: Doc, revision: Revision)

  // ---- the effects of a cell transaction ----

  /** Exactly the cells that differ, once each, with the values on both sides. */
  ghost predicate EffectsBetween(effects: seq<CellEffect>, before: Doc, after: Doc) {
    && DistinctTargets(effects)
    && (forall i | 0 <= i < |effects| ::
          && effects[i].addr.sheet in before.sheets
          && InGrid(effects[i].addr)
          && effects[i].before == before.Lookup(effects[i].addr)
          && after.Lookup(effects[i].addr) == Some(effects[i].after)
          && effects[i].before != Some(effects[i].after))
    && (forall a: Addr :: before.Lookup(a) == after.Lookup(a) || exists i :: 0 <= i < |effects| && effects[i].addr == a)
  }

  /** Publishing exactly those effects turns the one document into the other. */
  lemma EffectsPublish(effects: seq<CellEffect>, before: Doc, after: Doc)
    requires before.sheets == after.sheets
    requires EffectsBetween(effects, before, after)
    ensures Publish(before, Cells(effects), true) == Some(after)
  {
    var published := Assign(before, effects);
    assert forall i | 0 <= i < |effects| :: Before(before, effects[i], true);
    forall a: Addr ensures published.Lookup(a) == after.Lookup(a) {
      AssignAt(before, effects, a);
      if i :| 0 <= i < |effects| && effects[i].addr == a {
        assert published.Lookup(a) == Some(effects[i].after);
      }
    }
    SameLookups(published, after);
  }

  lemma SameLookups(a: Doc, b: Doc)
    requires a.sheets == b.sheets
    requires forall k: Addr :: a.Lookup(k) == b.Lookup(k)
    ensures a == b
  {
    forall k ensures k in a.cells <==> k in b.cells {
      assert a.Lookup(k) == b.Lookup(k);
    }
    forall k | k in a.cells ensures a.cells[k] == b.cells[k] {
      assert a.Lookup(k) == b.Lookup(k);
    }
    assert a.cells == b.cells;
  }

  // ---- locality of cell operations ----

  /** What placements do to an address depends only on what was there; other addresses stay. */
  lemma {:induction false} PlacementsAreLocal(a: Doc, b: Doc, ps: seq<Placement>, overwrite: bool, k: Addr)
    ensures a.Lookup(k) == b.Lookup(k) ==> PlaceAll(a, ps, overwrite).Lookup(k) == PlaceAll(b, ps, overwrite).Lookup(k)
    ensures (forall i | 0 <= i < |ps| :: ps[i].addr != k) ==> PlaceAll(a, ps, overwrite).Lookup(k) == a.Lookup(k)
    ensures (exists i :: 0 <= i < |ps| && ps[i].addr == k) || a.Lookup(k).Some? ==>
      PlaceAll(a, ps, overwrite).Lookup(k).Some?
  {
    if ps != [] {
      PlacementsAreLocal(a, b, ps[..|ps| - 1], overwrite, k);
    }
  }

  // ---- bounds: the two refusals of the fast path that validation makes unreachable ----

  lemma TouchedCount(op: WriteOp)
    requires IsCommon(op)
    ensures |Placements(op)| <= CellCount(op)
  {
  }

  lemma ValidOpsStayInGrid(op: WriteOp)
    requires IsCommon(op) && ValidOp(op)
    ensures Touched(op).Some?
    ensures forall i | 0 <= i < |Placements(op)| :: InGrid(Placements(op)[i].addr)
  {
    match op
    case SetCells(_, _, _) =>
    case WriteMatrix(_, column, row, rows, _) =>
      assert |rows[0]| >= 1;
      assert RowsFit(rows, MAX_COLUMN + 1 - column);
  }

  lemma {:induction false} DistinctAtMostLength(s: seq<Addr>)
    ensures |set a | a in s| <= |s|
  {
    if s == [] {
      assert (set a | a in s) == {};
    } else {
      DistinctAtMostLength(s[1..]);
      assert (set a | a in s) == {s[0]} + (set a | a in s[1..]);
    }
  }

  // ---- what is prepared ----

  function Predicted(revision: Revision, mutated: bool): Revision {
    if mutated then revision.Edited() else revision
  }

  function StageEntry(o: Owner, req: Request, failed: bool, changeId: Id): Option<(Id, Bundle)> {
    if req.mode == Stage && !failed then Some((changeId, Bundle(o.revision, true, req.ops, req.title))) else None
  }

  function ChangeIdOf(req: Request, failed: bool, changeId: Id): Option<Id> {
    if req.mode == Stage && !failed then Some(changeId) else None
  }

  /**
    The fast path's promise, stated through the clone-based run alone: same statuses, and effects
    that are exactly the difference that run makes.
   */
  ghost predicate CommonPrepared(o: Owner, req: Request, changeId: Id, p: Prepared) {
    var run := RunOps(o.engine, o.doc, req.ops, true);
    var failed := run.failure.Some?;
    var publishes := req.mode == Apply && !(req.atomic && failed) && run.doc != o.doc;
    && p.base == o.base
    && p.consume == None
    && p.staged == StageEntry(o, req, failed, changeId)
    && p.response == Respond(
         req, o.revision, Predicted(o.revision, publishes), run.results, run.failure,
         Succeeded(run.results), ChangeIdOf(req, failed, changeId))
    && (if publishes then p.publication.Cells? && EffectsBetween(p.publication.effects, o.doc, run.doc)
        else p.publication == NoPublication)
  }

  function SnapshotPublication(o: Owner, req: Request): Publication {
    var committed := Committed(o.engine, o.doc, req);
    if committed.Some? then
      var n := Succeeded(RunOps(o.engine, o.doc, req.ops, !req.atomic).results);
      Snapshot(Blank(o.doc), committed.value, if PreservesCalculation(req.ops, n) then Preserve else Invalidate)
    else NoPublication
  }

  ghost predicate SnapshotPrepared(o: Owner, req: Request, changeId: Id, p: Prepared) {
    var run := RunOps(o.engine, o.doc, req.ops, req.mode == Apply && !req.atomic);
    var failed := run.failure.Some?;
    && p.base == o.base
    && p.consume == None
    && p.staged == StageEntry(o, req, failed, changeId)
    && p.publication == SnapshotPublication(o, req)
    && p.response == Respond(
         req, o.revision, Predicted(o.revision, p.publication.Snapshot?), run.results, run.failure,
         Succeeded(run.results), ChangeIdOf(req, failed, changeId))
  }

  predicate Admissible(o: Owner, req: Request) {
    ValidRequest(req) && req.resource == o.resource && req.expected == o.revision
  }

  /** A stage that ran through is kept whole, at the owner's revision, under the identity its response reports. */
  lemma StagedBundleIsReported(o: Owner, req: Request, changeId: Id, p: Prepared)
    requires PreparedFor(o, req, changeId, p)
    ensures p.response.changeId == if p.staged.Some? then Some(changeId) else None
    ensures p.staged.Some? <==> req.mode == Stage && p.response.kind.WasStaged?
    ensures p.staged.Some? ==> p.staged.value == (changeId, Bundle(o.revision, true, req.ops, req.title))
  {
  }

  ghost predicate PreparedFor(o: Owner, req: Request, changeId: Id, p: Prepared) {
    && Admissible(o, req)
    && if AllCommon(req.ops) then CommonPrepared(o, req, changeId, p) else SnapshotPrepared(o, req, changeId, p)
  }

  predicate StyleOnly(kind: string) {
    kind in {
      "style", "column_size", "freeze_panes", "set_zoom", "set_gridlines", "set_page_margins",
      "set_page_setup", "set_print_area", "set_page_breaks", "set_data_validation",
      "add_conditional_format", "set_conditional_format", "clear_conditional_formats"}
  }

  /** The first `n` operations, the ones that were applied, leave every formula result valid. */
  predicate PreservesCalculation(ops: seq<WriteOp>, n: nat) {
    forall i | 0 <= i < |ops| && i < n :: ops[i].Other? && StyleOnly(ops[i].kind)
  }

  // ---- the fast path ----

  /** The shadow agrees with the cloned run wherever anything was touched, and nothing else changed. */
  ghost predicate Shadows(shadow: Doc, before: map<Addr, Option<Cell>>, source: Doc, run: Doc) {
    && shadow.sheets == source.sheets == run.sheets
    && (forall a | a in before ::
         a.sheet in source.sheets && InGrid(a) && before[a] == source.Lookup(a) && shadow.Lookup(a) == run.Lookup(a))
    && (forall a: Addr | a !in before :: shadow.Lookup(a) == None && run.Lookup(a) == source.Lookup(a))
    && (forall a: Addr | source.Lookup(a).Some? :: run.Lookup(a).Some?)
  }

  method TouchCells(source: Doc, touched: seq<Addr>, before0: map<Addr, Option<Cell>>, shadow0: Doc, ghost run: Doc)
    returns (before: map<Addr, Option<Cell>>, shadow: Doc)
    requires Shadows(shadow0, before0, source, run)
    requires forall i | 0 <= i < |touched| :: InGrid(touched[i])
    ensures Shadows(shadow, before, source, run)
    ensures forall i | 0 <= i < |touched| && touched[i].sheet in source.sheets :: touched[i] in before
    ensures before.Keys <= before0.Keys + (set a | a in touched)
  {
    before, shadow := before0, shadow0;
    for i := 0 to |touched|
      invariant Shadows(shadow, before, source, run)
      invariant forall j | 0 <= j < i && touched[j].sheet in source.sheets :: touched[j] in before
      invariant before.Keys <= before0.Keys + (set a | a in touched)
    {
      var key := touched[i];
      if key !in before && key.sheet in source.sheets {
        var original := source.Lookup(key);
        before := before[key := original];
        if original.Some? {
          shadow := shadow.Put(key, original.value);
        }
      }
    }
  }

  /** Running an operation on the shadow and on the clone keeps them in step. */
  lemma ShadowStep(engine: Engine, shadow: Doc, before: map<Addr, Option<Cell>>, source: Doc, run: Doc, op: WriteOp)
    requires IsCommon(op)
    requires Shadows(shadow, before, source, run)
    requires forall i | 0 <= i < |Placements(op)| && Placements(op)[i].addr.sheet in source.sheets ::
      Placements(op)[i].addr in before
    ensures ApplyOp(engine, shadow, op).1 == ApplyOp(engine, run, op).1
    ensures ApplyOp(engine, run, op).1 ==>
      Shadows(ApplyOp(engine, shadow, op).0, before, source, ApplyOp(engine, run, op).0)
  {
    if ApplyOp(engine, run, op).1 {
      var ps := Placements(op);
      var shadow', run' := ApplyOp(engine, shadow, op).0, ApplyOp(engine, run, op).0;
      forall a: Addr
        ensures a in before ==> shadow'.Lookup(a) == run'.Lookup(a)
        ensures a !in before ==> shadow'.Lookup(a) == None && run'.Lookup(a) == source.Lookup(a)
        ensures source.Lookup(a).Some? ==> run'.Lookup(a).Some?
      {
        PlacementsAreLocal(shadow, run, ps, op.overwrite, a);
        PlacementsAreLocal(run, shadow, ps, op.overwrite, a);
      }
    }
  }

  method CollectEffects(before: map<Addr, Option<Cell>>, shadow: Doc, ghost source: Doc, ghost run: Doc)
    returns (effects: seq<CellEffect>)
    requires Shadows(shadow, before, source, run)
    ensures EffectsBetween(effects, source, run)
    ensures effects == [] <==> run == source
  {
    effects := [];
    var keys := before.Keys;
    while keys != {}
      invariant keys <= before.Keys
      invariant DistinctTargets(effects)
      invariant forall i | 0 <= i < |effects| ::
        && effects[i].addr in before.Keys - keys
        && effects[i].before == before[effects[i].addr]
        && shadow.Lookup(effects[i].addr) == Some(effects[i].after)
        && effects[i].before != Some(effects[i].after)
      invariant forall a | a in before.Keys - keys ::
        before[a] == shadow.Lookup(a) || exists i :: 0 <= i < |effects| && effects[i].addr == a
    {
      var key :| key in keys;
      var after := shadow.Lookup(key);
      ghost var earlier := effects;
      if before[key] != after && after.Some? {
        effects := effects + [CellEffect(key, before[key], after.value)];
        assert effects[|effects| - 1].addr == key;
      } else {
        assert source.Lookup(key) == before[key];
      }
      forall a | a in before.Keys - keys
        ensures before[a] == shadow.Lookup(a) || exists i :: 0 <= i < |effects| && effects[i].addr == a
      {
        if before[a] != shadow.Lookup(a) {
          var i :| 0 <= i < |earlier| && earlier[i].addr == a;
          assert effects[i].addr == a;
        }
      }
      keys := keys - {key};
    }
    forall a: Addr ensures source.Lookup(a) == run.Lookup(a) || exists i :: 0 <= i < |effects| && effects[i].addr == a {
      if a in before {
        assert a in before.Keys - keys;
      }
    }
    if effects == [] {
      SameLookups(source, run);
    } else {
      assert effects[0].before != Some(effects[0].after);
    }
  }

  /** One operation on the shadow; the bounds refusal and the cell cap are branches validation rules out. */
  method PrepareOp(o: Owner, op: WriteOp, before0: map<Addr, Option<Cell>>, shadow0: Doc, ghost run: Doc)
    returns (before: map<Addr, Option<Cell>>, shadow: Doc, ok: bool, ghost next: Doc)
    requires IsCommon(op) && ValidOp(op)
    requires Shadows(shadow0, before0, o.doc, run)
    requires |before0| + CellCount(op) <= MAX_WRITE_CELLS
    ensures ok == ApplyOp(o.engine, run, op).1
    ensures next == if ok then ApplyOp(o.engine, run, op).0 else run
    ensures Shadows(shadow, before, o.doc, next)
    ensures |before| <= |before0| + CellCount(op)
  {
    hide Shadows, ApplyOp, InGrid, ValidOp;
    before, shadow := before0, shadow0;
    ValidOpsStayInGrid(op);
    TouchedCount(op);
    var touched := Touched(op);
    if touched.None? {
      return before, shadow, false, run;
    }
    var added := set a | a in touched.value && a !in before;
    DistinctAtMostLength(touched.value);
    SubsetSize(added, set a | a in touched.value);
    if |before| + |added| > MAX_PREPARED_COMMON_CELLS {
      return before, shadow, false, run;
    }
    before, shadow := TouchCells(o.doc, touched.value, before, shadow, run);
    SubsetSize(before.Keys, before0.Keys + added);
    ShadowStep(o.engine, shadow, before, o.doc, run, op);
    if !ApplyOp(o.engine, shadow, op).1 {
      FailingCellOpChangesNothing(o.engine, shadow, op);
    }
    var (candidate, applied) := ApplyOp(o.engine, shadow, op);
    shadow, ok := candidate, applied;
    next := if ok then ApplyOp(o.engine, run, op).0 else run;
  }

  method RunOnShadow(o: Owner, req: Request)
    returns (shadow: Doc, before: map<Addr, Option<Cell>>, results: seq<Status>, failure: Option<nat>)
    requires Admissible(o, req) && AllCommon(req.ops)
    ensures
      var run := RunOps(o.engine, o.doc, req.ops, true);
      results == run.results && failure == run.failure && Shadows(shadow, before, o.doc, run.doc)
  {
    shadow, before, results, failure := Doc(o.doc.sheets, map[]), map[], [], None;
    ghost var run := o.doc;
    for index := 0 to |req.ops|
      invariant RunOps(o.engine, o.doc, req.ops[..index], true) == Run(run, results, failure)
      invariant Shadows(shadow, before, o.doc, run)
      invariant |before| <= CellTotal(req.ops[..index])
    {
      RunStep(o.engine, o.doc, req.ops, index, true);
      if failure.Some? {
        CellTotalStep(req.ops, index);
        results := results + [Skipped];
      } else {
        CellTotalStep(req.ops, index);
        CellTotalGrows(req.ops, index + 1);
        var ok;
        before, shadow, ok, run := PrepareOp(o, req.ops[index], before, shadow, run);
        if ok {
          results := results + [Applied];
        } else {
          failure := Some(index);
          results := results + [Failed];
        }
      }
    }
    assert req.ops[..|req.ops|] == req.ops;
  }

  method PrepareCommon(o: Owner, req: Request, changeId: Id) returns (p: Prepared)
    requires Admissible(o, req) && AllCommon(req.ops)
    ensures CommonPrepared(o, req, changeId, p)
  {
    var shadow, before, results, failure := RunOnShadow(o, req);
    var effects := CollectEffects(before, shadow, o.doc, RunOps(o.engine, o.doc, req.ops, true).doc);
    var applied := CountApplied(results);
    var publishes := req.mode == Apply && !(req.atomic && failure.Some?) && effects != [];
    p := Prepared(
      o.base,
      Respond(req, o.revision, Predicted(o.revision, publishes), results, failure, applied,
        ChangeIdOf(req, failure.Some?, changeId)),
      if publishes then Cells(effects) else NoPublication,
      StageEntry(o, req, failure.Some?, changeId),
      None);
  }

  method CountApplied(results: seq<Status>) returns (n: nat)
    ensures n == Succeeded(results)
  {
    n := 0;
    for i := 0 to |results|
      invariant n == Succeeded(results[..i])
    {
      assert results[..i + 1][..i] == results[..i];
      if results[i] == Applied {
        n := n + 1;
      }
    }
    assert results[..|results|] == results;
  }

  lemma SubsetSize<T>(a: set<T>, b: set<T>)
    requires a <= b
    ensures |a| <= |b|
  {
    assert b == a + (b - a);
  }

  // ---- the general path, and the choice between them ----

  /** Looks at the operations that were applied, one by one. */
  method OnlyStyles(ops: seq<WriteOp>, n: nat) returns (all: bool)
    ensures all <==> PreservesCalculation(ops, n)
  {
    for i := 0 to |ops|
      invariant forall k | 0 <= k < i && k < n :: ops[k].Other? && StyleOnly(ops[k].kind)
    {
      if i < n {
        if !ops[i].Other? {
          return false;
        }
        var kind := ops[i].kind;
        var styles := kind == "style" || kind == "column_size" || kind == "freeze_panes" || kind == "set_zoom"
          || kind == "set_gridlines" || kind == "set_page_margins" || kind == "set_page_setup"
          || kind == "set_print_area" || kind == "set_page_breaks" || kind == "set_data_validation"
          || kind == "add_conditional_format" || kind == "set_conditional_format"
          || kind == "clear_conditional_formats";
        if !styles {
          return false;
        }
      }
    }
    return true;
  }

  method PrepareSnapshot(o: Owner, req: Request, changeId: Id) returns (p: Prepared)
    requires Admissible(o, req)
    ensures SnapshotPrepared(o, req, changeId, p)
  {
    if req.mode == Stage {
      var preview, _ := ExecuteOnBytes(o.engine, o.doc, o.revision, req.(mode := Preview), o.revision);
      var failed := preview.value.kind.WasFailed?;
      var reply := preview.value;
      p := Prepared(
        o.base,
        if failed then Response(WasFailed, Stage, reply.atomic, o.revision, o.revision, 0, reply.results, None)
        else Response(
          WasStaged, Stage, true, o.revision, o.revision, reply.ops, Repeat(Staged, |reply.results|), Some(changeId)),
        NoPublication, StageEntry(o, req, failed, changeId), None);
      return;
    }
    var reply, committed := ExecuteOnBytes(o.engine, o.doc, o.revision, req, o.revision.Edited());
    var publication := NoPublication;
    if committed.Some? {
      var n := CountApplied(reply.value.results);
      var preserves := OnlyStyles(req.ops, n);
      publication := Snapshot(Blank(o.doc), committed.value, if preserves then Preserve else Invalidate);
    }
    p := Prepared(
      o.base, reply.value.(before := o.revision, after := Predicted(o.revision, committed.Some?)), publication,
      None, None);
  }

  method Prepare(o: Owner, req: Request, changeId: Id) returns (p: Result<Prepared>)
    ensures p.Ok? <==> Admissible(o, req)
    ensures p.Ok? ==> PreparedFor(o, req, changeId, p.value)
  {
    var valid := ValidateRequest(req);
    if !valid || req.resource != o.resource || req.expected != o.revision {
      return Err;
    }
    var q;
    if AllCommon(req.ops) {
      q := PrepareCommon(o, req, changeId);
    } else {
      q := PrepareSnapshot(o, req, changeId);
    }
    return Ok(q);
  }

  // ---- the two paths agree ----

  lemma {:induction false} CellRunsNeedNoClone(engine: Engine, d: Doc, ops: seq<WriteOp>)
    requires AllCommon(ops)
    ensures RunOps(engine, d, ops, true) == RunOps(engine, d, ops, false)
    ensures RunOps(engine, d, ops, true).doc.sheets == d.sheets
  {
    if ops != [] {
      CellRunsNeedNoClone(engine, d, ops[..|ops| - 1]);
    }
  }

  /** What the general path commits for a cell-only request, in terms of the cloned run. */
  lemma CellCommit(engine: Engine, d: Doc, req: Request)
    requires AllCommon(req.ops) && req.ops != []
    ensures
      var run := RunOps(engine, d, req.ops, true);
      var committed := Committed(engine, d, req);
      && (committed.Some? ==> req.mode == Apply && !(req.atomic && run.failure.Some?) && committed.value == run.doc)
      && (committed.None? ==> req.mode != Apply || (req.atomic && run.failure.Some?) || run.doc == d)
  {
    CellRunsNeedNoClone(engine, d, req.ops);
    RunSucceeded(engine, d, req.ops, true);
    RunIsExactPrefix(engine, d, req.ops, true);
    if RunOps(engine, d, req.ops, true).failure == Some(0) {
      assert req.ops[..0] == [];
    }
  }

  /**
    For cell-only requests the fast path means what the general path means: it publishes a document
    exactly when the general path commits a different one, and then the same document; the
    statuses, the variant and the counts reported are the same. The revision moves less often: a
    commit that changes no cell moves it on the general path only.
   */
  lemma FastPathMeansGeneralPath(o: Owner, req: Request, changeId: Id, fast: Prepared, general: Prepared)
    requires Admissible(o, req) && AllCommon(req.ops)
    requires CommonPrepared(o, req, changeId, fast)
    requires SnapshotPrepared(o, req, changeId, general)
    ensures Publish(o.doc, fast.publication, true).Some? && Publish(o.doc, general.publication, true).Some?
    ensures Publish(o.doc, fast.publication, true) == Publish(o.doc, general.publication, true)
    ensures fast.response.(after := general.response.after) == general.response
    ensures fast.staged == general.staged
    ensures fast.publication.NoPublication? <==> Publish(o.doc, general.publication, true).value == o.doc
    ensures fast.response.after != general.response.after ==> Publish(o.doc, general.publication, true).value == o.doc
  {
    CellRunsNeedNoClone(o.engine, o.doc, req.ops);
    CellCommit(o.engine, o.doc, req);
    var run := RunOps(o.engine, o.doc, req.ops, true);
    if fast.publication.Cells? {
      EffectsPublish(fast.publication.effects, o.doc, run.doc);
    }
  }
}
