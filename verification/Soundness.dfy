/**
  Each request against the invariant that ties a usable session to its journal: what it proposes is
  admitted unless an identity collides, and publishing it keeps session and journal in step.
 */
module Soundness {
  import opened Wrappers
  import opened Documents
  import opened Writes
  import opened Preparation
  import opened History
  import opened Ancestry
  import opened Journals
  import opened Protocol

  /**
    A usable session is the journal's session: same revision, generation and catalog, and a document
    that is, up to cached results, the one the journal rebuilds at its head.
   */
  ghost predicate InSync(c: Context, js: seq<Record>, live: Live) {
    var h := Replay(c.shelf.session, c.shelf.base, js);
    && h.Some?
    && Synced(h.value, live)
    && live.staged == StagedBy(js)
    && DocAt(js, c.shelf.base, h.value.head).Some?
    && SameLogic(DocAt(js, c.shelf.base, h.value.head).value, live.book.doc)
    && live.book.revision.epoch != ""
  }

  ghost predicate Inv(c: Context, js: seq<Record>, live: Option<Live>) {
    && Replay(c.shelf.session, c.shelf.base, js).Some?
    && Rebuildable(js, c.shelf.base)
    && (live.Some? ==> InSync(c, js, live.value))
  }

  ghost predicate Ready(c: Context, js: seq<Record>, h: HistoryState, live: Live) {
    Replay(c.shelf.session, c.shelf.base, js) == Some(h) && Rebuildable(js, c.shelf.base) && InSync(c, js, live)
  }

  lemma ReplaySnoc(c: Context, js: seq<Record>, h: HistoryState, r: Record)
    requires Replay(c.shelf.session, c.shelf.base, js) == Some(h)
    ensures Replay(c.shelf.session, c.shelf.base, js + [r]) == Admit(h, r)
  {
    ReplayAppends(c.shelf.session, c.shelf.base, js, r);
  }

  // ---- history facts ----

  ghost predicate Bounded(h: HistoryState) {
    forall v | v in h.visible :: h.revision.Some? && v.0.state <= h.revision.value.state && v.1 <= h.generation
  }

  lemma AdvanceCounts(h: HistoryState, r: Record, moved: HistoryState)
    requires Advance(h, r) == Some(moved)
    ensures moved.generation >= h.generation
    ensures CatalogOnly(r) && !r.transition.Receipt? ==> moved.generation > h.generation
  {
    PartsKeepCounts(h, r);
    hide RedoTarget, ReceiptAllowed, Known, ParentOf, PublishDocument, CreateBranch;
  }

  lemma AdmitKeepsBounded(h: HistoryState, r: Record, h': HistoryState)
    requires Bounded(h) && Admit(h, r) == Some(h')
    ensures Bounded(h')
  {
    AdvanceCounts(h, r, Advance(h, r).value);
  }

  lemma {:induction false} HistoryIsBounded(session: Id, base: Doc, js: seq<Record>)
    requires Replay(session, base, js).Some?
    ensures Bounded(Replay(session, base, js).value)
  {
    if js != [] {
      var older := js[..|js| - 1];
      HistoryIsBounded(session, base, older);
      AdmitKeepsBounded(Replay(session, base, older).value, js[|js| - 1], Replay(session, base, js).value);
    }
  }

  lemma EmptyOrDated(session: Id, base: Doc, js: seq<Record>)
    requires Replay(session, base, js).Some?
    ensures Replay(session, base, js).value.revision.None? <==> js == []
  {
    if js != [] {
      LastRecordStands(session, base, js);
    }
  }

  // ---- documents at heads ----

  lemma HeadDocOfKnown(js: seq<Record>, base: Doc, h: HistoryState, target: Option<Id>)
    requires Replay(h.session, base, js) == Some(h) && Known(h, target)
    ensures HeadDoc(js, base, target) == DocAt(js, base, target)
  {
    if target.Some? {
      HistoryTreeIsSound(h.session, base, js);
      assert ParentIsOlder(js, h, target.value);
      PublishersCarryDocuments(h.session, base, js, Rank(js, target.value) - 1);
    }
  }

  lemma {:induction false} PublishersCarryDocuments(session: Id, base: Doc, js: seq<Record>, i: nat)
    requires Replay(session, base, js).Some? && i < |js| && Publishes(js[i])
    ensures CarriesDocument(js[i].transition)
  {
    if i < |js| - 1 {
      PublishersCarryDocuments(session, base, js[..|js| - 1], i);
    }
  }

  // ---- admission ----

  predicate Unseen(h: HistoryState, requestId: Id, commitId: Id) {
    commitId != "" && commitId !in h.commitIds && requestId != "" && requestId !in h.requestIds
  }

  /** Identity, ancestry and visibility never stand in the way of a record built from the replayed history. */
  lemma AdmissionOfControl(c: Context, js: seq<Record>, h: HistoryState, live: Live, r: Record)
    requires Ready(c, js, h, live)
    requires r.session == c.shelf.session && r.base == c.shelf.base && r.parent == h.tip
    requires r.effects.prepared.None? && r.effects.outcome.None?
    requires !CarriesDocument(r.transition) && !r.transition.CatalogStage?
    requires r.revision == RevisionAfter(live.book.revision, r, h.head)
    ensures Admit(h, r).Some? <==>
      Unseen(h, r.requestId, r.commitId) && Advance(h, r).Some? && Consistent(Advance(h, r).value, r)
  {
    HistoryIsBounded(c.shelf.session, c.shelf.base, js);
    if Advance(h, r).Some? {
      AdvanceCounts(h, r, Advance(h, r).value);
    }
  }

  lemma RequestIsUnseen(c: Context, js: seq<Record>, h: HistoryState, requestId: Id)
    requires Replay(c.shelf.session, c.shelf.base, js) == Some(h)
    requires FirstWith(js, requestId).None?
    ensures requestId !in h.requestIds
  {
    RequestIdsAreListed(c.shelf.session, c.shelf.base, js);
  }

  // ---- publishing a record that carries no document ----

  /** Session and journal stay in step over a record that publishes nothing. */
  lemma NonPublishingStaysInSync(c: Context, js: seq<Record>, h: HistoryState, live: Live, r: Record, next: Live)
    requires Ready(c, js, h, live)
    requires !Publishes(r) && Admit(h, r).Some?
    requires next.book.revision == r.revision && next.generation == r.generation && r.revision.epoch != ""
    requires next.staged == StagedAfter(live.staged, r)
    requires DocAt(js, c.shelf.base, r.head).Some? && SameLogic(DocAt(js, c.shelf.base, r.head).value, next.book.doc)
    ensures InSync(c, js + [r], next) && Rebuildable(js + [r], c.shelf.base)
  {
    var js' := js + [r];
    assert js'[..|js|] == js;
    ReplaySnoc(c, js, h, r);
    LastRecordStands(c.shelf.session, c.shelf.base, js');
    RebuildableExtends(js, c.shelf.base, r);
  }

  // ---- requests that move history, branches, checkpoints and proofs ----

  /**
    A proposal is sound when it is admitted exactly if its identity is unused and the request names
    something acceptable, and when publishing an admitted one keeps session and journal in step.
   */
  ghost predicate Sound(c: Context, js: seq<Record>, h: HistoryState, a: Attempt, acceptable: bool)
    requires a.Proposed?
  {
    var r := a.record;
    && (Admit(h, r).Some? <==> r.commitId != "" && r.commitId !in h.commitIds && acceptable)
    && (Admit(h, r).Some? ==> a.next.Some? && InSync(c, js + [r], a.next.value) && Rebuildable(js + [r], c.shelf.base))
  }

  predicate Controls(t: Transition) {
    !CarriesDocument(t) && !t.CatalogStage? && !t.CatalogDiscard? && !t.CalculationPublish? && !t.Restart?
  }

  lemma ControlIsSound(
    c: Context, js: seq<Record>, h: HistoryState, live: Live, requestId: Id, commitId: Id, t: Transition, e: Effects,
    head: Option<Id>, branch: Id, branches: map<Id, Option<Id>>, target: Option<Doc>, acceptable: bool)
    requires Ready(c, js, h, live) && requestId !in h.requestIds && requestId != ""
    requires Controls(t) && e.prepared.None? && e.outcome.None?
    requires t.CalculationInvalidate? ==> !live.book.stamp.Dirty?
    requires target.Some? <==> MovesHistory(t) || (t.BranchSwitch? && head != h.head)
    requires if target.Some? then acceptable ==> DocAt(js, c.shelf.base, head) == target else head == h.head
    requires
      var a := ControlAttempt(c, h, live, requestId, commitId, t, e, head, branch, branches, target);
      acceptable <==> Advance(h, a.record).Some? && Consistent(Advance(h, a.record).value, a.record)
    ensures Sound(
      c, js, h, ControlAttempt(c, h, live, requestId, commitId, t, e, head, branch, branches, target), acceptable)
  {
    var a := ControlAttempt(c, h, live, requestId, commitId, t, e, head, branch, branches, target);
    AdmissionOfControl(c, js, h, live, a.record);
    if Admit(h, a.record).Some? {
      NonPublishingStaysInSync(c, js, h, live, a.record, a.next.value);
    }
  }

  lemma OpenGate(c: Context, js: seq<Record>, h: HistoryState, live: Live, requestId: Id, readable: bool)
    requires Ready(c, js, h, live) && requestId !in h.requestIds
    ensures Enter(c, js, live, requestId, readable) == if readable then Open(h) else Shut
  {
    RequestIdsAreListed(c.shelf.session, c.shelf.base, js);
    if i :| 0 <= i < |js| && js[i].requestId == requestId {
      assert false;
    }
  }

  lemma ReceiptIsSound(
    c: Context, js: seq<Record>, h: HistoryState, live: Live, requestId: Id, commitId: Id, operation: Transition,
    e: Effects)
    requires Ready(c, js, h, live) && requestId !in h.requestIds && requestId != ""
    requires e.prepared.None? && e.outcome.None? && e.target.None?
    requires operation.Undo? ==> h.head.None?
    requires operation.Redo? ==> RedoTarget(h) == Ok(None)
    requires operation.CatalogDiscard? ==> e.discard.Some? && e.discard.value !in h.catalog
    requires operation.Undo? || operation.Redo? || operation.CatalogDiscard? || operation.CalculationInvalidate?
    ensures Sound(c, js, h, ReceiptAttempt(c, h, live, requestId, commitId, operation, e), true)
  {
    hide Replay, Rebuildable, DocAt, StagedBy, Blank, RedoTarget, Admit;
    ControlIsSound(
      c, js, h, live, requestId, commitId, Receipt, e.(receiptOf := Some(operation)), h.head, h.branch, h.branches,
      None, true);
  }

  lemma MovesAdvance(h: HistoryState, r: Record)
    requires MovesHistory(r.transition) && r.effects.target == Some(r.head) && r.historyParent.None?
    requires r.transition.Undo? ==> r.head == ParentOf(h, h.head)
    requires r.transition.Redo? ==> RedoTarget(h) == Ok(r.head) && ParentOf(h, r.head) == h.head
    requires r.transition.Undo? ==> Known(h, r.head)
    ensures Advance(h, r) == if Known(h, r.head) then Some(h.(head := r.head)) else None
  {
  }

  lemma MoveToDocIsSound(
    c: Context, js: seq<Record>, h: HistoryState, live: Live, requestId: Id, commitId: Id,
    t: Transition, e: Effects, target: Option<Id>, d: Doc, acceptable: bool)
    requires Ready(c, js, h, live) && requestId !in h.requestIds && requestId != ""
    requires MovesHistory(t) && e.prepared.None? && e.outcome.None? && e.target == Some(target)
    requires t.Undo? ==> target == ParentOf(h, h.head) && acceptable
    requires t.Redo? ==> RedoTarget(h) == Ok(target) && ParentOf(h, target) == h.head
    requires acceptable <==> Known(h, target)
    requires acceptable ==> DocAt(js, c.shelf.base, target) == Some(d)
    ensures Sound(
      c, js, h, ControlAttempt(c, h, live, requestId, commitId, t, e, target, h.branch, h.branches, Some(d)),
      acceptable)
  {
    MovesAdvance(
      h, ControlAttempt(c, h, live, requestId, commitId, t, e, target, h.branch, h.branches, Some(d)).record);
    ControlIsSound(c, js, h, live, requestId, commitId, t, e, target, h.branch, h.branches, Some(d), acceptable);
  }

  lemma MoveIsSound(
    c: Context, js: seq<Record>, h: HistoryState, live: Live, requestId: Id, commitId: Id,
    t: Transition, e: Effects, target: Option<Id>, acceptable: bool)
    requires Ready(c, js, h, live) && requestId !in h.requestIds && requestId != ""
    requires MovesHistory(t) && e.prepared.None? && e.outcome.None?
    requires t.Undo? ==> target == ParentOf(h, h.head)
    requires t.Redo? ==> RedoTarget(h) == Ok(target) && ParentOf(h, target) == h.head
    requires acceptable <==> Known(h, target)
    requires HeadDoc(js, c.shelf.base, target).Some?
    ensures Sound(c, js, h, MoveAttempt(c, js, h, live, requestId, commitId, t, e, target), acceptable)
  {
    HistoryTreeIsSound(c.shelf.session, c.shelf.base, js);
    if acceptable {
      HeadDocOfKnown(js, c.shelf.base, h, target);
    }
    MoveToDocIsSound(
      c, js, h, live, requestId, commitId, t, e.(target := Some(target)), target,
      HeadDoc(js, c.shelf.base, target).value, acceptable);
  }

  lemma UndoIsSound(
    c: Context, js: seq<Record>, h: HistoryState, live: Live, requestId: Id, commitId: Id, readable: bool)
    requires Ready(c, js, h, live) && requestId !in h.requestIds
    requires UndoAttempt(c, js, live, requestId, commitId, readable).Proposed?
    ensures Sound(c, js, h, UndoAttempt(c, js, live, requestId, commitId, readable), true)
  {
    OpenGate(c, js, h, live, requestId, readable);
    if h.head.None? {
      ReceiptIsSound(c, js, h, live, requestId, commitId, Undo, NoEffects);
    } else {
      HistoryTreeIsSound(c.shelf.session, c.shelf.base, js);
      MoveIsSound(c, js, h, live, requestId, commitId, Undo, NoEffects, h.parents[h.head.value], true);
    }
  }

  /** What redo finds is a child of the head. */
  lemma {:induction false} RedoFindsChild(h: HistoryState, cursor: Id, seen: set<Id>)
    requires RedoWalk(h.parents, h.head, cursor, seen).Ok? && RedoWalk(h.parents, h.head, cursor, seen).value.Some?
    ensures
      var child := RedoWalk(h.parents, h.head, cursor, seen).value.value;
      child in h.parents && h.parents[child] == h.head
    decreases h.parents.Keys - seen
  {
    if h.parents[cursor] != h.head {
      RedoFindsChild(h, h.parents[cursor].value, seen + {cursor});
    }
  }

  lemma RedoIsSound(
    c: Context, js: seq<Record>, h: HistoryState, live: Live, requestId: Id, commitId: Id, readable: bool)
    requires Ready(c, js, h, live) && requestId !in h.requestIds
    requires RedoAttempt(c, js, live, requestId, commitId, readable).Proposed?
    ensures Sound(c, js, h, RedoAttempt(c, js, live, requestId, commitId, readable), true)
  {
    OpenGate(c, js, h, live, requestId, readable);
    if RedoTarget(h) == Ok(None) {
      ReceiptIsSound(c, js, h, live, requestId, commitId, Redo, NoEffects);
    } else {
      RedoFindsChild(h, h.branches[h.branch].value, {});
      MoveIsSound(c, js, h, live, requestId, commitId, Redo, NoEffects, RedoTarget(h).value, true);
    }
  }

  lemma CheckoutIsSound(
    c: Context, js: seq<Record>, h: HistoryState, live: Live, requestId: Id, commitId: Id, readable: bool, target: Id)
    requires Ready(c, js, h, live) && requestId !in h.requestIds
    requires CheckoutAttempt(c, js, live, requestId, commitId, readable, target).Proposed?
    ensures Sound(c, js, h, CheckoutAttempt(c, js, live, requestId, commitId, readable, target), target in h.parents)
  {
    OpenGate(c, js, h, live, requestId, readable);
    MoveIsSound(c, js, h, live, requestId, commitId, Checkout, NoEffects, Some(target), target in h.parents);
  }

  lemma RestoreIsSound(
    c: Context, js: seq<Record>, h: HistoryState, live: Live, requestId: Id, commitId: Id, readable: bool, id: Id)
    requires Ready(c, js, h, live) && requestId !in h.requestIds
    requires RestoreCheckpointAttempt(c, js, live, requestId, commitId, readable, id).Proposed?
    ensures Sound(c, js, h, RestoreCheckpointAttempt(c, js, live, requestId, commitId, readable, id), true)
  {
    OpenGate(c, js, h, live, requestId, readable);
    HistoryTreeIsSound(c.shelf.session, c.shelf.base, js);
    MoveIsSound(
      c, js, h, live, requestId, commitId, Checkout, NoEffects.(checkpoint := Some(id)), h.checkpoints[id].head, true);
  }

  lemma NewBranchIsSound(
    c: Context, js: seq<Record>, h: HistoryState, live: Live, requestId: Id, commitId: Id, readable: bool,
    name: Id, target: Option<Id>, title: Option<string>)
    requires Ready(c, js, h, live) && requestId !in h.requestIds
    requires CreateBranchAttempt(c, js, live, requestId, commitId, readable, name, target, title).Proposed?
    ensures Sound(
      c, js, h, CreateBranchAttempt(c, js, live, requestId, commitId, readable, name, target, title),
      target.Some? && target.value != "base" ==> target.value in h.parents)
  {
    hide Replay, Rebuildable, ValidBranchRequest, DocAt, StagedBy, Blank, Rank, Enter, Admit;
    OpenGate(c, js, h, live, requestId, readable);
    HistoryTreeIsSound(c.shelf.session, c.shelf.base, js);
    var resolved := BranchTarget(js, h, target).value;
    ControlIsSound(
      c, js, h, live, requestId, commitId, BranchCreate, BranchEffects(name, target, title, resolved),
      h.head, h.branch, h.branches[name := resolved], None,
      target.Some? && target.value != "base" ==> target.value in h.parents);
  }

  lemma ToBranchIsSound(
    c: Context, js: seq<Record>, h: HistoryState, live: Live, requestId: Id, commitId: Id, readable: bool, name: Id)
    requires Ready(c, js, h, live) && requestId !in h.requestIds
    requires SwitchBranchAttempt(c, js, live, requestId, commitId, readable, name).Proposed?
    ensures Sound(c, js, h, SwitchBranchAttempt(c, js, live, requestId, commitId, readable, name), true)
  {
    hide Replay, Rebuildable, DocAt, StagedBy, Blank, Rank, Enter, Admit;
    OpenGate(c, js, h, live, requestId, readable);
    HistoryTreeIsSound(c.shelf.session, c.shelf.base, js);
    var target := h.branches[name];
    HeadDocOfKnown(js, c.shelf.base, h, target);
    var d := if target == h.head then None else HeadDoc(js, c.shelf.base, target);
    ControlIsSound(
      c, js, h, live, requestId, commitId, BranchSwitch, NoEffects.(branchName := Some(name)), target, name,
      h.branches, d, true);
  }

  lemma SaveIsSound(
    c: Context, js: seq<Record>, h: HistoryState, live: Live, requestId: Id, commitId: Id, readable: bool,
    title: Option<string>)
    requires Ready(c, js, h, live) && requestId !in h.requestIds
    requires SaveCheckpointAttempt(c, js, live, requestId, commitId, readable, title).Proposed?
    ensures Sound(c, js, h, SaveCheckpointAttempt(c, js, live, requestId, commitId, readable, title), true)
  {
    hide Replay, Rebuildable, DocAt, StagedBy, Blank, Enter, Admit;
    OpenGate(c, js, h, live, requestId, readable);
    ControlIsSound(
      c, js, h, live, requestId, commitId, Checkpoint, NoEffects.(title := title), h.head, h.branch, h.branches,
      None, true);
  }

  lemma DeleteIsSound(
    c: Context, js: seq<Record>, h: HistoryState, live: Live, requestId: Id, commitId: Id, readable: bool, id: Id)
    requires Ready(c, js, h, live) && requestId !in h.requestIds
    requires DeleteCheckpointAttempt(c, js, live, requestId, commitId, readable, id).Proposed?
    ensures Sound(c, js, h, DeleteCheckpointAttempt(c, js, live, requestId, commitId, readable, id), true)
  {
    hide Replay, Rebuildable, DocAt, StagedBy, Blank, Enter, Admit;
    OpenGate(c, js, h, live, requestId, readable);
    ControlIsSound(
      c, js, h, live, requestId, commitId, CheckpointDelete, NoEffects.(checkpoint := Some(id)),
      h.head, h.branch, h.branches, None, true);
  }

  lemma RevokeIsSound(
    c: Context, js: seq<Record>, h: HistoryState, live: Live, requestId: Id, commitId: Id, readable: bool)
    requires Ready(c, js, h, live) && requestId !in h.requestIds
    requires RevokeAttempt(c, js, live, requestId, commitId, readable).Proposed?
    ensures Sound(c, js, h, RevokeAttempt(c, js, live, requestId, commitId, readable), true)
  {
    OpenGate(c, js, h, live, requestId, readable);
    var e := NoEffects.(revocation := true);
    if live.book.stamp.Dirty? {
      ReceiptIsSound(c, js, h, live, requestId, commitId, CalculationInvalidate, e);
    } else {
      ControlIsSound(
        c, js, h, live, requestId, commitId, CalculationInvalidate, e, h.head, h.branch, h.branches, None, true);
    }
  }

  /** Calculation is sound unless the engine hands back a result for a cell without a formula. */
  lemma RecalculateIsSound(
    c: Context, js: seq<Record>, h: HistoryState, live: Live, requestId: Id, commitId: Id, readable: bool,
    timeout: Option<nat>, evaluation: Option<map<Addr, string>>)
    requires Ready(c, js, h, live) && requestId !in h.requestIds
    requires RecalculateAttempt(c, js, live, requestId, commitId, readable, timeout, evaluation).Proposed?
    requires evaluation.Some? ==> OnFormulas(live.book.doc, evaluation.value)
    ensures Sound(c, js, h, RecalculateAttempt(c, js, live, requestId, commitId, readable, timeout, evaluation), true)
  {
    OpenGate(c, js, h, live, requestId, readable);
    var a := RecalculateAttempt(c, js, live, requestId, commitId, readable, timeout, evaluation);
    AdmissionOfControl(c, js, h, live, a.record);
    if Admit(h, a.record).Some? {
      ResultsAreNotLogic(live.book.doc, evaluation.value);
      NonPublishingStaysInSync(c, js, h, live, a.record, a.next.value);
    }
  }

  lemma DiscardIsSound(
    c: Context, js: seq<Record>, h: HistoryState, live: Live, requestId: Id, commitId: Id, readable: bool, change: Id)
    requires Ready(c, js, h, live) && requestId !in h.requestIds
    requires DiscardAttempt(c, js, live, requestId, commitId, readable, change).Proposed?
    ensures Sound(c, js, h, DiscardAttempt(c, js, live, requestId, commitId, readable, change), true)
  {
    OpenGate(c, js, h, live, requestId, readable);
    CatalogFollowsStream(c.shelf.session, c.shelf.base, js);
    var a := DiscardAttempt(c, js, live, requestId, commitId, readable, change);
    if change !in live.staged {
      ReceiptIsSound(c, js, h, live, requestId, commitId, CatalogDiscard, NoEffects.(discard := Some(change)));
    } else {
      AdmissionOfControl(c, js, h, live, a.record);
      if Admit(h, a.record).Some? {
        NonPublishingStaysInSync(c, js, h, live, a.record, a.next.value);
      }
    }
  }

  // ---- writes ----

  /** What the protocol needs of a prepared transaction, whichever path prepared it. */
  ghost predicate Usable(o: Owner, req: Request, changeId: Id, p: Prepared) {
    && p.base == o.base
    && p.consume.None?
    && p.response.before == o.revision
    && p.response.after == Predicted(o.revision, !p.publication.NoPublication?)
    && Publish(o.doc, p.publication, true).Some?
    && ValidPublication(p.publication)
    && (p.staged.Some? ==>
         p.publication.NoPublication? && p.staged.value.0 == changeId && p.staged.value.1.base == o.revision)
    && (p.staged.Some? ==> req.mode.Stage?)
    && (req.mode.Stage? && p.staged.None? ==> p.response.kind.WasFailed?)
  }

  lemma CommonIsUsable(o: Owner, req: Request, changeId: Id, p: Prepared)
    requires AllCommon(req.ops) && CommonPrepared(o, req, changeId, p)
    ensures Usable(o, req, changeId, p)
  {
    var run := RunOps(o.engine, o.doc, req.ops, true);
    CellRunsNeedNoClone(o.engine, o.doc, req.ops);
    if p.publication.Cells? {
      EffectsPublish(p.publication.effects, o.doc, run.doc);
    }
  }

  lemma SnapshotIsUsable(o: Owner, req: Request, changeId: Id, p: Prepared)
    requires SnapshotPrepared(o, req, changeId, p)
    ensures Usable(o, req, changeId, p)
  {
  }

  lemma PreparedIsUsable(o: Owner, req: Request, changeId: Id, p: Prepared)
    requires PreparedFor(o, req, changeId, p)
    ensures Usable(o, req, changeId, p)
  {
    if AllCommon(req.ops) {
      CommonIsUsable(o, req, changeId, p);
    } else {
      SnapshotIsUsable(o, req, changeId, p);
    }
  }

  ghost predicate Writable(
    c: Context, js: seq<Record>, h: HistoryState, live: Live, req: Request, changeId: Id, p: Prepared) {
    && Usable(OwnerOf(c, live), req, changeId, p.(consume := None))
    && (p.consume.Some? ==> p.consume.value in live.staged && p.staged.None?)
  }

  lemma WriteIsValidPrepared(
    c: Context, js: seq<Record>, h: HistoryState, live: Live, requestId: Id, commitId: Id, token: Print,
    req: Request, changeId: Id, p: Prepared)
    requires Writable(c, js, h, live, req, changeId, p) && Synced(h, live)
    ensures
      var r := WriteRecord(c, h, live, requestId, commitId, token, p);
      && ValidPrepared(r, h.revision)
      && (Publishes(r) <==> !p.publication.NoPublication?)
      && r.revision == RevisionAfter(live.book.revision, r, h.head)
      && PreviousRevision(h, r) == Some(live.book.revision)
      && (CatalogOnly(r) <==> p.publication.NoPublication?)
      && (r.transition.Receipt? || r.generation > live.generation || Publishes(r))
  {
  }

  lemma WriteAdvances(
    c: Context, js: seq<Record>, h: HistoryState, live: Live, requestId: Id, commitId: Id, token: Print,
    req: Request, changeId: Id, p: Prepared)
    requires Writable(c, js, h, live, req, changeId, p) && Synced(h, live) && live.staged.Keys == h.catalog
    ensures
      var r := WriteRecord(c, h, live, requestId, commitId, token, p);
      && (Advance(h, r).Some? <==> (p.staged.Some? ==> changeId !in live.staged))
      && (Advance(h, r).Some? ==> Consistent(Advance(h, r).value, r))
  {
    hide Publish, ValidPublication, Predicted, RedoTarget, CreateBranch, Known, ParentOf;
  }

  lemma AdmissionOfWrite(
    c: Context, js: seq<Record>, h: HistoryState, live: Live, requestId: Id, commitId: Id, token: Print,
    req: Request, changeId: Id, p: Prepared)
    requires Ready(c, js, h, live) && requestId != "" && requestId !in h.requestIds
    requires Writable(c, js, h, live, req, changeId, p)
    ensures
      var r := WriteRecord(c, h, live, requestId, commitId, token, p);
      Admit(h, r).Some? <==> commitId != "" && commitId !in h.commitIds && (p.staged.Some? ==> changeId !in live.staged)
  {
    var r := WriteRecord(c, h, live, requestId, commitId, token, p);
    HistoryIsBounded(c.shelf.session, c.shelf.base, js);
    CatalogFollowsStream(c.shelf.session, c.shelf.base, js);
    WriteIsValidPrepared(c, js, h, live, requestId, commitId, token, req, changeId, p);
    WriteAdvances(c, js, h, live, requestId, commitId, token, req, changeId, p);
    AdmissionGivenAdvance(h, r, live);
  }

  lemma AdmissionGivenAdvance(h: HistoryState, r: Record, live: Live)
    requires r.session == h.session && r.base == h.base && r.parent == h.tip && r.effects.outcome.None?
    requires r.requestId != "" && r.requestId !in h.requestIds
    requires ValidPrepared(r, h.revision) && Synced(h, live) && Bounded(h)
    requires PreviousRevision(h, r) == Some(live.book.revision)
    requires r.revision == RevisionAfter(live.book.revision, r, h.head) && r.revision.epoch != ""
    requires r.transition.Receipt? || r.generation > live.generation || !CatalogOnly(r)
    requires Advance(h, r).Some? ==> Consistent(Advance(h, r).value, r)
    ensures Admit(h, r).Some? <==> r.commitId != "" && r.commitId !in h.commitIds && Advance(h, r).Some?
  {
  }

  /** The document a publishing record commits is rebuilt from the journal, up to cached results. */
  lemma PublishedDocumentIsRebuilt(c: Context, js: seq<Record>, h: HistoryState, live: Live, r: Record)
    requires Ready(c, js, h, live)
    requires Publishes(r) && r.historyParent == h.head
    requires Publish(live.book.doc, r.effects.prepared.value.publication, true).Some?
    ensures
      var rebuilt := DocAt(js + [r], c.shelf.base, Some(r.commitId));
      rebuilt.Some?
        && SameLogic(rebuilt.value, Publish(live.book.doc, r.effects.prepared.value.publication, true).value)
  {
    assert (js + [r])[..|js|] == js;
    RecoveryAcceptsPublished(
      live.book.doc, DocAt(js, c.shelf.base, h.head).value, r.effects.prepared.value.publication);
  }

  lemma PublishingStaysInSync(c: Context, js: seq<Record>, h: HistoryState, live: Live, r: Record, next: Live)
    requires Ready(c, js, h, live)
    requires Publishes(r) && Admit(h, r).Some? && r.historyParent == h.head && r.head == Some(r.commitId)
    requires Publish(live.book.doc, r.effects.prepared.value.publication, true) == Some(next.book.doc)
    requires next.book.revision == r.revision && next.generation == r.generation && r.revision.epoch != ""
    requires next.staged == StagedAfter(live.staged, r)
    ensures InSync(c, js + [r], next) && Rebuildable(js + [r], c.shelf.base)
  {
    var js' := js + [r];
    assert js'[..|js|] == js;
    ReplaySnoc(c, js, h, r);
    LastRecordStands(c.shelf.session, c.shelf.base, js');
    PublishedDocumentIsRebuilt(c, js, h, live, r);
    RebuildableExtends(js, c.shelf.base, r);
  }

  lemma PublicationSucceeds(
    c: Context, js: seq<Record>, h: HistoryState, live: Live, requestId: Id, commitId: Id, token: Print,
    req: Request, changeId: Id, p: Prepared)
    requires Writable(c, js, h, live, req, changeId, p)
    requires p.staged.Some? ==> changeId !in live.staged
    ensures
      var r := WriteRecord(c, h, live, requestId, commitId, token, p);
      var next := PublishPrepared(c, live, p);
      && next.Some?
      && Some(next.value.book.doc) == Publish(live.book.doc, p.publication, true)
      && next.value.book.revision == r.revision
      && next.value.generation == r.generation
      && next.value.staged == StagedAfter(live.staged, r)
  {
  }

  lemma WriteIsSound(
    c: Context, js: seq<Record>, h: HistoryState, live: Live, requestId: Id, commitId: Id, token: Print,
    req: Request, changeId: Id, p: Prepared)
    requires Ready(c, js, h, live) && requestId != "" && requestId !in h.requestIds
    requires Writable(c, js, h, live, req, changeId, p)
    ensures
      var a := Proposed(
        WriteRecord(c, h, live, requestId, commitId, token, p), PublishPrepared(c, live, p), Wrote(p.response));
      Sound(c, js, h, a, p.staged.Some? ==> changeId !in live.staged)
  {
    var r := WriteRecord(c, h, live, requestId, commitId, token, p);
    AdmissionOfWrite(c, js, h, live, requestId, commitId, token, req, changeId, p);
    if Admit(h, r).Some? {
      PublicationSucceeds(c, js, h, live, requestId, commitId, token, req, changeId, p);
      var next := PublishPrepared(c, live, p).value;
      if Publishes(r) {
        PublishingStaysInSync(c, js, h, live, r, next);
      } else {
        NonPublishingStaysInSync(c, js, h, live, r, next);
      }
    }
  }

  lemma WriteOnIsSound(
    c: Context, js: seq<Record>, h: HistoryState, live: Live, requestId: Id, commitId: Id, readable: bool,
    request: Request, changeId: Id, prepared: Option<Prepared>)
    requires Ready(c, js, h, live) && requestId !in h.requestIds
    requires PreparationOf(c, live, request, changeId, prepared)
    requires WriteAttempt(c, js, live, requestId, commitId, readable, request, None, prepared).Proposed?
    ensures Sound(
      c, js, h, WriteAttempt(c, js, live, requestId, commitId, readable, request, None, prepared),
      request.mode.Stage? ==> changeId !in live.staged)
  {
    PreparedIsUsable(OwnerOf(c, live), request, changeId, prepared.value);
    WriteIsSound(
      c, js, h, live, requestId, commitId, WritePrint(c.shelf.base, None, request), request, changeId, prepared.value);
  }

  lemma ApplyStagedIsSound(
    c: Context, js: seq<Record>, h: HistoryState, live: Live, requestId: Id, commitId: Id, readable: bool,
    change: Id, expected: Revision, prepared: Option<Prepared>)
    requires Ready(c, js, h, live) && requestId !in h.requestIds
    requires change in live.staged ==>
      PreparationOf(c, live, ApplyRequest(c, expected, live.staged[change]), "", prepared)
    requires ApplyStagedAttempt(c, js, live, requestId, commitId, readable, change, expected, prepared).Proposed?
    ensures Sound(
      c, js, h, ApplyStagedAttempt(c, js, live, requestId, commitId, readable, change, expected, prepared), true)
  {
    OpenGate(c, js, h, live, requestId, readable);
    var request := ApplyRequest(c, expected, live.staged[change]);
    PreparedIsUsable(OwnerOf(c, live), request, "", prepared.value);
    WriteIsSound(
      c, js, h, live, requestId, commitId, WritePrint(c.shelf.base, Some(change), request), request, "",
      prepared.value.(consume := Some(change)));
  }
}
