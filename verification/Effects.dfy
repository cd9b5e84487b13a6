/**
  What each served request leaves behind: documents, heads, branches, checkpoints, staged changes and
  the state of the calculation proof.
 */
module Effects {
  import opened Wrappers
  import opened Documents
  import opened Writes
  import opened Preparation
  import opened History
  import opened Ancestry
  import opened Journals
  import opened Protocol
  import opened Soundness
  import opened Runs
  import opened Guarantees
  import opened Approvals
  import opened Revisits

  /** A first asking that is answered well. */
  ghost predicate Served(c: Context, w: World, requestId: Id, commitId: Id, op: Op, f: Faults) {
    && Good(c, w) && w.live.Some? && WellPrepared(c, w.live.value, op)
    && FirstWith(w.js, requestId).None? && Step(c, w, Ask(requestId, commitId, op, f)).1.Ok?
  }

  /** The world a served request leads to. */
  function After(c: Context, w: World, requestId: Id, commitId: Id, op: Op, f: Faults): World {
    Step(c, w, Ask(requestId, commitId, op, f)).0
  }

  /** Either nothing at all happened, which only writes may answer well, or one record was published. */
  lemma ServedIsPublished(c: Context, w: World, requestId: Id, commitId: Id, op: Op, f: Faults)
    requires Served(c, w, requestId, commitId, op, f)
    ensures
      var a := AttemptOf(c, w.js, w.live.value, requestId, commitId, f.readable, op);
      var w' := After(c, w, requestId, commitId, op, f);
      && Good(c, w') && w'.live.Some?
      && Step(c, w, Ask(requestId, commitId, op, f)).1 == Ok(a.reply)
      && f.readable
      && (a.Answered? ==> w' == w && (op.WriteOn? || op.ApplyStaged?))
      && (!a.Answered? ==> a.Proposed? && a.next.Some? && w' == World(w.js + [a.record], a.next))
  {
    hide AttemptOf, InSync, Rebuildable, Replay, WellPrepared, Moves;
    var a := AttemptOf(c, w.js, w.live.value, requestId, commitId, f.readable, op);
    AskKeepsGood(c, w, requestId, commitId, op, f);
    if !f.readable {
      OnlyReadable(c, w.js, w.live.value, requestId, commitId, f.readable, op);
    }
    if a.Proposed? {
      SettleProposal(c, w.js, w.live.value, a, f);
    } else if !op.WriteOn? && !op.ApplyStaged? {
      UnrecordedAnswers(c, w.js, w.live.value, requestId, commitId, f.readable, op);
    }
  }

  lemma OnlyReadable(c: Context, js: seq<Record>, live: Live, requestId: Id, commitId: Id, readable: bool, op: Op)
    requires !readable
    ensures AttemptOf(c, js, live, requestId, commitId, readable, op).Refused?
  {
    hide ControlAttempt, Replay, WriteRecord, PublishPrepared;
  }

  /** The replayed history after one more record, field by field. */
  lemma HistoryAfter(c: Context, js: seq<Record>, r: Record)
    requires Replay(c.shelf.session, c.shelf.base, js).Some? && Replay(c.shelf.session, c.shelf.base, js + [r]).Some?
    ensures
      var h, h' := HistoryOf(c, js), HistoryOf(c, js + [r]);
      && h'.head == r.head && h'.branch == r.branch && h'.branches == r.branches && h'.generation == r.generation
      && h'.revision == Some(r.revision)
      && (!Publishes(r) ==> h'.parents == h.parents)
      && h'.checkpoints
         == (match r.transition
             case Checkpoint => h.checkpoints[r.requestId := SavedHead(h.head, r.revision, r.effects.title)]
             case CheckpointDelete => h.checkpoints - {r.effects.checkpoint.GetOr("")}
             case _ => h.checkpoints)
  {
    hide Replay, Admit;
    LastRecordStands(c.shelf.session, c.shelf.base, js + [r]);
    ReplaySnoc(c, js, HistoryOf(c, js), r);
    HistoryTreeIsSound(c.shelf.session, c.shelf.base, js);
    AdmitGrows(HistoryOf(c, js), r, HistoryOf(c, js + [r]));
    CheckpointsAfter(HistoryOf(c, js), r, HistoryOf(c, js + [r]));
  }

  lemma CheckpointsAfter(h: HistoryState, r: Record, h': HistoryState)
    requires Admit(h, r) == Some(h')
    ensures
      h'.checkpoints
      == (match r.transition
          case Checkpoint => h.checkpoints[r.requestId := SavedHead(h.head, r.revision, r.effects.title)]
          case CheckpointDelete => h.checkpoints - {r.effects.checkpoint.GetOr("")}
          case _ => h.checkpoints)
  {
    PartsKeepCheckpoints(h, r);
    hide ValidPrepared, RedoTarget, ReceiptAllowed, PublishDocument, CreateBranch, Known, ParentOf, RevisionAfter;
  }

  lemma PartsKeepCheckpoints(h: HistoryState, r: Record)
    ensures PublishDocument(h, r).Some? ==> PublishDocument(h, r).value.checkpoints == h.checkpoints
    ensures CreateBranch(h, r).Some? ==> CreateBranch(h, r).value.checkpoints == h.checkpoints
  {
  }

  // ---- recalculation ----

  /**
    A served recalculation stores exactly its results, each in a formula cell whose formula stays, leaves
    every other cell and the history alone, and makes the proof current one state later.
   */
  lemma RecalculationStores(
    c: Context, w: World, requestId: Id, commitId: Id, timeout: Option<nat>, evaluation: Option<map<Addr, string>>,
    f: Faults)
    requires Served(c, w, requestId, commitId, Recalculate(timeout, evaluation), f)
    ensures
      var w' := After(c, w, requestId, commitId, Recalculate(timeout, evaluation), f);
      && w'.live.Some? && evaluation.Some?
      && var doc, doc', results := w.live.value.book.doc, w'.live.value.book.doc, evaluation.value;
      && doc'.sheets == doc.sheets && doc'.cells.Keys == doc.cells.Keys
      && (forall a | a in results ::
           && a in doc.cells && doc.cells[a].formula.Some?
           && doc'.cells[a].value == results[a] && doc'.cells[a].formula == doc.cells[a].formula)
      && (forall a | a in doc.cells && a !in results :: doc'.cells[a] == doc.cells[a])
    ensures
      var live := w.live.value;
      var w' := After(c, w, requestId, commitId, Recalculate(timeout, evaluation), f);
      && w'.live.value.book.stamp == Current && w'.live.value.staged == live.staged
      && w'.live.value.generation == live.generation
      && w'.live.value.book.revision
         == Revision(live.book.revision.epoch, live.book.revision.document, live.book.revision.state + 1)
      && Step(c, w, Ask(requestId, commitId, Recalculate(timeout, evaluation), f)).1
         == Ok(Calculated(Proof(timeout, w'.live.value.book.revision, true)))
  {
    hide Replay, Enter, InSync, Rebuildable, Step;
    ServedIsPublished(c, w, requestId, commitId, Recalculate(timeout, evaluation), f);
  }

  // ---- branches and checkpoints ----

  /** The workbook and the staged changes stay; the revision moves one state on, or stays as well. */
  ghost predicate KeepsContent(live: Live, live': Live, noted: bool) {
    && live'.book.doc == live.book.doc && live'.book.stamp == live.book.stamp && live'.staged == live.staged
    && live'.book.revision
       == (if noted
           then Revision(live.book.revision.epoch, live.book.revision.document, live.book.revision.state + 1)
           else live.book.revision)
  }

  /** A new branch points at the head, at the base if so asked, or at the commit that was named; nothing else moves. */
  lemma NewBranchTakesEffect(
    c: Context, w: World, requestId: Id, commitId: Id, name: Id, from: Option<Id>, title: Option<string>, f: Faults)
    requires Served(c, w, requestId, commitId, NewBranch(name, from, title), f)
    ensures
      var w' := After(c, w, requestId, commitId, NewBranch(name, from, title), f);
      && Good(c, w') && w'.live.Some? && KeepsContent(w.live.value, w'.live.value, true)
      && var h, h' := HistoryOf(c, w.js), HistoryOf(c, w'.js);
      && name !in h.branches
      && h'.branches == h.branches[name := if from == None then h.head else if from == Some("base") then None else from]
      && h'.head == h.head && h'.branch == h.branch && h'.parents == h.parents && h'.checkpoints == h.checkpoints
      && h'.generation == h.generation
  {
    hide Replay, InSync, Rebuildable, Step, WellPrepared, ValidBranchRequest, FirstWith;
    ServedIsPublished(c, w, requestId, commitId, NewBranch(name, from, title), f);
    var r := CreateBranchAttempt(c, w.js, w.live.value, requestId, commitId, f.readable, name, from, title).record;
    HistoryAfter(c, w.js, r);
  }

  /** Saving a checkpoint remembers head, revision and title under the request's identity, and moves nothing. */
  lemma SavingTakesEffect(
    c: Context, w: World, requestId: Id, commitId: Id, title: Option<string>, f: Faults)
    requires Served(c, w, requestId, commitId, SaveCheckpoint(title), f)
    ensures
      var w' := After(c, w, requestId, commitId, SaveCheckpoint(title), f);
      && Good(c, w') && w'.live.Some? && KeepsContent(w.live.value, w'.live.value, false)
      && var h, h' := HistoryOf(c, w.js), HistoryOf(c, w'.js);
      && h'.checkpoints == h.checkpoints[requestId := SavedHead(h.head, w.live.value.book.revision, title)]
      && h'.head == h.head && h'.branch == h.branch && h'.branches == h.branches && h'.parents == h.parents
      && h'.generation == h.generation + 1
  {
    hide Replay, InSync, Rebuildable, Step, WellPrepared, FirstWith;
    ServedIsPublished(c, w, requestId, commitId, SaveCheckpoint(title), f);
    var r := SaveCheckpointAttempt(c, w.js, w.live.value, requestId, commitId, f.readable, title).record;
    HistoryAfter(c, w.js, r);
    LiveIsSynced(c, w);
  }

  lemma LiveIsSynced(c: Context, w: World)
    requires Good(c, w) && w.live.Some?
    ensures Synced(HistoryOf(c, w.js), w.live.value)
  {
  }

  /** Deleting a checkpoint forgets that one, and moves nothing. */
  lemma DeletingTakesEffect(c: Context, w: World, requestId: Id, commitId: Id, id: Id, f: Faults)
    requires Served(c, w, requestId, commitId, DeleteCheckpoint(id), f)
    ensures
      var w' := After(c, w, requestId, commitId, DeleteCheckpoint(id), f);
      && Good(c, w') && w'.live.Some? && KeepsContent(w.live.value, w'.live.value, false)
      && var h, h' := HistoryOf(c, w.js), HistoryOf(c, w'.js);
      && id in h.checkpoints && h'.checkpoints == h.checkpoints - {id}
      && h'.head == h.head && h'.branch == h.branch && h'.branches == h.branches && h'.parents == h.parents
      && h'.generation == h.generation + 1
  {
    hide Replay, InSync, Rebuildable, Step, WellPrepared, FirstWith;
    ServedIsPublished(c, w, requestId, commitId, DeleteCheckpoint(id), f);
    var r := DeleteCheckpointAttempt(c, w.js, w.live.value, requestId, commitId, f.readable, id).record;
    HistoryAfter(c, w.js, r);
    LiveIsSynced(c, w);
  }

  // ---- jumps ----

  /** Head and document are those of the target; branches, checkpoints and staged changes stay; the proof is void. */
  ghost predicate JumpsTo(c: Context, w: World, w': World, target: Option<Id>) {
    && Good(c, w) && w.live.Some? && Good(c, w') && w'.live.Some?
    && var h, h', live, live' := HistoryOf(c, w.js), HistoryOf(c, w'.js), w.live.value, w'.live.value;
    && h'.head == target && h'.branch == h.branch && h'.branches == h.branches && h'.parents == h.parents
    && h'.checkpoints == h.checkpoints && h'.generation == h.generation
    && DocAt(w.js, c.shelf.base, target).Some? && SameLogic(DocAt(w.js, c.shelf.base, target).value, live'.book.doc)
    && live'.staged == live.staged && live'.book.stamp == Dirty
    && live'.book.revision
       == Revision(live.book.revision.epoch, live.book.revision.document + 1, live.book.revision.state + 1)
  }

  lemma HeadDocumentIsLive(c: Context, w: World, w': World)
    requires Good(c, w) && Good(c, w') && w'.live.Some? && w.js <= w'.js
    requires HistoryOf(c, w'.js).parents == HistoryOf(c, w.js).parents
    ensures
      var head := HistoryOf(c, w'.js).head;
      && DocAt(w.js, c.shelf.base, head).Some?
      && SameLogic(DocAt(w.js, c.shelf.base, head).value, w'.live.value.book.doc)
  {
    hide Replay, Rebuildable, Rank, DocAt, StagedBy, Blank;
    var h, head := HistoryOf(c, w.js), HistoryOf(c, w'.js).head;
    HistoryTreeIsSound(c.shelf.session, c.shelf.base, w.js);
    HistoryTreeIsSound(c.shelf.session, c.shelf.base, w'.js);
    if head.Some? {
      assert ParentIsOlder(w.js, h, head.value);
      RankStays(c.shelf.session, c.shelf.base, w.js, w'.js, head.value);
    }
    DocAtOlder(w'.js, c.shelf.base, |w.js|, head);
    assert w'.js[..|w.js|] == w.js;
  }

  lemma CheckoutTakesEffect(c: Context, w: World, requestId: Id, commitId: Id, target: Id, f: Faults)
    requires Served(c, w, requestId, commitId, CheckoutAt(target), f)
    ensures JumpsTo(c, w, After(c, w, requestId, commitId, CheckoutAt(target), f), Some(target))
  {
    hide Replay, InSync, Rebuildable, Step, WellPrepared, FirstWith, HeadDoc, DocAt, SameLogic;
    var w' := After(c, w, requestId, commitId, CheckoutAt(target), f);
    ServedIsPublished(c, w, requestId, commitId, CheckoutAt(target), f);
    var r := CheckoutAttempt(c, w.js, w.live.value, requestId, commitId, f.readable, target).record;
    HistoryAfter(c, w.js, r);
    LiveIsSynced(c, w);
    HeadDocumentIsLive(c, w, w');
  }

  /** A restore goes to the head the checkpoint remembers. */
  lemma RestoringTakesEffect(c: Context, w: World, requestId: Id, commitId: Id, id: Id, f: Faults)
    requires Served(c, w, requestId, commitId, RestoreCheckpoint(id), f)
    ensures Replay(c.shelf.session, c.shelf.base, w.js).Some? && id in HistoryOf(c, w.js).checkpoints
    ensures
      JumpsTo(
        c, w, After(c, w, requestId, commitId, RestoreCheckpoint(id), f), HistoryOf(c, w.js).checkpoints[id].head)
  {
    hide Replay, InSync, Rebuildable, Step, WellPrepared, FirstWith, HeadDoc, DocAt, SameLogic;
    var w' := After(c, w, requestId, commitId, RestoreCheckpoint(id), f);
    ServedIsPublished(c, w, requestId, commitId, RestoreCheckpoint(id), f);
    var r := RestoreCheckpointAttempt(c, w.js, w.live.value, requestId, commitId, f.readable, id).record;
    HistoryAfter(c, w.js, r);
    LiveIsSynced(c, w);
    HeadDocumentIsLive(c, w, w');
  }

  // ---- staged changes ----

  /** A discard takes exactly the named change off the list, and reports whether there was one. */
  lemma DiscardTakesEffect(c: Context, w: World, requestId: Id, commitId: Id, change: Id, f: Faults)
    requires Served(c, w, requestId, commitId, DiscardStaged(change), f)
    ensures
      var w' := After(c, w, requestId, commitId, DiscardStaged(change), f);
      var live, did := w.live.value, change in w.live.value.staged;
      && Good(c, w') && w'.live.Some?
      && w'.live.value
         == live.(staged := live.staged - {change}, generation := live.generation + (if did then 1 else 0))
      && Step(c, w, Ask(requestId, commitId, DiscardStaged(change), f)).1 == Ok(Discarded(did))
      && HistoryOf(c, w'.js).head == HistoryOf(c, w.js).head
      && HistoryOf(c, w'.js).branches == HistoryOf(c, w.js).branches
  {
    hide Replay, InSync, Rebuildable, Step, WellPrepared, FirstWith;
    ServedIsPublished(c, w, requestId, commitId, DiscardStaged(change), f);
    var r := DiscardAttempt(c, w.js, w.live.value, requestId, commitId, f.readable, change).record;
    HistoryAfter(c, w.js, r);
    assert change !in w.live.value.staged ==> w.live.value.staged - {change} == w.live.value.staged;
  }

  // ---- the calculation proof ----

  /** What becomes of the proof in requests that write nothing: void once the document moves, untouched otherwise. */
  function StampAfter(h: HistoryState, h': HistoryState, stamp: Stamp, op: Op): Stamp {
    match op
    case Recalculate(_, _) => Current
    case RevokeCalculation => Dirty
    case CheckoutAt(_) => Dirty
    case RestoreCheckpoint(_) => Dirty
    case UndoOnce => if h.head == None then stamp else Dirty
    case RedoOnce => if h'.head == h.head then stamp else Dirty
    case ToBranch(_) => if h'.head == h.head then stamp else Dirty
    case _ => stamp
  }

  lemma JumpStamps(c: Context, w: World, requestId: Id, commitId: Id, op: Op, f: Faults)
    requires Served(c, w, requestId, commitId, op, f) && (op.CheckoutAt? || op.RestoreCheckpoint? || op.ToBranch?)
    ensures
      var w' := After(c, w, requestId, commitId, op, f);
      && Good(c, w') && w'.live.Some?
      && w'.live.value.book.stamp == StampAfter(HistoryOf(c, w.js), HistoryOf(c, w'.js), w.live.value.book.stamp, op)
  {
    hide Replay, InSync, Rebuildable, Step, WellPrepared, FirstWith, HeadDoc, SameLogic, DocAt, ControlRevision;
    ServedIsPublished(c, w, requestId, commitId, op, f);
    var a := AttemptOf(c, w.js, w.live.value, requestId, commitId, f.readable, op);
    HistoryAfter(c, w.js, a.record);
    hide Enter, RedoTarget;
  }

  lemma StepStamps(c: Context, w: World, requestId: Id, commitId: Id, op: Op, f: Faults)
    requires Served(c, w, requestId, commitId, op, f) && (op.UndoOnce? || op.RedoOnce?)
    ensures
      var w' := After(c, w, requestId, commitId, op, f);
      && Good(c, w') && w'.live.Some?
      && w'.live.value.book.stamp == StampAfter(HistoryOf(c, w.js), HistoryOf(c, w'.js), w.live.value.book.stamp, op)
  {
    hide Replay, InSync, Rebuildable, Step, WellPrepared, FirstWith, HeadDoc, SameLogic, DocAt, ControlRevision;
    ServedIsPublished(c, w, requestId, commitId, op, f);
    var a := AttemptOf(c, w.js, w.live.value, requestId, commitId, f.readable, op);
    HistoryAfter(c, w.js, a.record);
    RedoLeavesHead(c, w.js);
    hide RedoTarget;
  }

  lemma QuietStamps(c: Context, w: World, requestId: Id, commitId: Id, op: Op, f: Faults)
    requires Served(c, w, requestId, commitId, op, f)
      && (op.DiscardStaged? || op.NewBranch? || op.SaveCheckpoint? || op.DeleteCheckpoint?)
    ensures
      var w' := After(c, w, requestId, commitId, op, f);
      && Good(c, w') && w'.live.Some?
      && w'.live.value.book.stamp == StampAfter(HistoryOf(c, w.js), HistoryOf(c, w'.js), w.live.value.book.stamp, op)
  {
    hide Replay, InSync, Rebuildable, Step, WellPrepared, FirstWith, HeadDoc, SameLogic, DocAt, ControlRevision;
    ServedIsPublished(c, w, requestId, commitId, op, f);
    var a := AttemptOf(c, w.js, w.live.value, requestId, commitId, f.readable, op);
    HistoryAfter(c, w.js, a.record);
    hide Enter, BranchTarget, BranchEffects;
  }

  lemma ProofStamps(c: Context, w: World, requestId: Id, commitId: Id, op: Op, f: Faults)
    requires Served(c, w, requestId, commitId, op, f) && (op.RevokeCalculation? || op.Recalculate?)
    ensures
      var w' := After(c, w, requestId, commitId, op, f);
      && Good(c, w') && w'.live.Some?
      && w'.live.value.book.stamp == StampAfter(HistoryOf(c, w.js), HistoryOf(c, w'.js), w.live.value.book.stamp, op)
  {
    hide Replay, InSync, Rebuildable, Step, WellPrepared, FirstWith, HeadDoc, SameLogic, DocAt, ControlRevision;
    ServedIsPublished(c, w, requestId, commitId, op, f);
    var a := AttemptOf(c, w.js, w.live.value, requestId, commitId, f.readable, op);
    HistoryAfter(c, w.js, a.record);
    hide Enter, Cached;
  }

  lemma StampsFollowDocuments(c: Context, w: World, requestId: Id, commitId: Id, op: Op, f: Faults)
    requires Served(c, w, requestId, commitId, op, f) && !op.WriteOn? && !op.ApplyStaged?
    ensures
      var w' := After(c, w, requestId, commitId, op, f);
      && Good(c, w') && w'.live.Some?
      && w'.live.value.book.stamp == StampAfter(HistoryOf(c, w.js), HistoryOf(c, w'.js), w.live.value.book.stamp, op)
  {
    hide Served, After, StampAfter, Good;
    match op
    case UndoOnce => StepStamps(c, w, requestId, commitId, op, f);
    case RedoOnce => StepStamps(c, w, requestId, commitId, op, f);
    case CheckoutAt(_) => JumpStamps(c, w, requestId, commitId, op, f);
    case RestoreCheckpoint(_) => JumpStamps(c, w, requestId, commitId, op, f);
    case ToBranch(_) => JumpStamps(c, w, requestId, commitId, op, f);
    case RevokeCalculation => ProofStamps(c, w, requestId, commitId, op, f);
    case Recalculate(_, _) => ProofStamps(c, w, requestId, commitId, op, f);
    case _ => QuietStamps(c, w, requestId, commitId, op, f);
  }

  lemma RedoLeavesHead(c: Context, js: seq<Record>)
    requires Replay(c.shelf.session, c.shelf.base, js).Some?
    ensures
      var h := HistoryOf(c, js);
      RedoTarget(h).Ok? && RedoTarget(h).value.Some? ==> RedoTarget(h).value != h.head
  {
    HistoryTreeIsSound(c.shelf.session, c.shelf.base, js);
    var h := HistoryOf(c, js);
    if RedoTarget(h).Ok? && RedoTarget(h).value.Some? {
      RedoFindsChild(h, h.branches[h.branch].value, {});
      assert ParentIsOlder(js, h, RedoTarget(h).value.value);
    }
  }

  // ---- writes ----

  predicate CellsOnly(ops: seq<WriteOp>) {
    forall i | 0 <= i < |ops| :: ops[i].SetCells? || ops[i].WriteMatrix?
  }

  /**
    An apply leaves the document its operations make. If they are all cell operations and change
    nothing, the workbook is as it was; otherwise a commit moves both counters, and the proof survives
    only operations of style.
   */
  predicate Applies(c: Context, live: Live, book: Book, request: Request, applied: nat) {
    && book.doc == Candidate(c, live.book.doc, request)
    && var edited := Revision(live.book.revision.epoch, live.book.revision.document + 1, live.book.revision.state + 1);
    if CellsOnly(request.ops) then
      book == (if book.doc == live.book.doc then live.book else Book(book.doc, edited, Dirty))
    else if Committed(c.engine, live.book.doc, request).None? then book == live.book
    else
      && book.revision == edited
      && book.stamp
         == (if forall i | 0 <= i < |request.ops| && i < applied ::
           request.ops[i].Other? && StyleOnly(request.ops[i].kind)
             then live.book.stamp else Dirty)
  }

  lemma CellsApply(c: Context, live: Live, request: Request, changeId: Id, p: Prepared)
    requires request.mode == Apply && CommonPrepared(OwnerOf(c, live), request, changeId, p)
    requires CellsOnly(request.ops) && request.ops != []
    requires PublishedBook(live.book, p.publication).Some?
    ensures Applies(c, live, PublishedBook(live.book, p.publication).value, request, p.response.ops)
  {
    var run := RunOps(c.engine, live.book.doc, request.ops, true);
    CellCommit(c.engine, live.book.doc, request);
    CellRunsNeedNoClone(c.engine, live.book.doc, request.ops);
    hide RunOps, Succeeded, Respond, Committed;
    if p.publication.Cells? {
      EffectsPublish(p.publication.effects, live.book.doc, run.doc);
      hide EffectsBetween, Assign, AllBefore;
    }
  }

  lemma AppliedIsReported(req: Request, before: Revision, after: Revision, results: seq<Status>, failure: Option<nat>)
    requires req.mode == Apply && (failure.Some? ==> failure.value <= |results|) && (req.atomic ==> failure.None?)
    ensures Respond(req, before, after, results, failure, Succeeded(results), None).ops == Succeeded(results)
  {
  }

  lemma CommitIsReported(c: Context, live: Live, request: Request, changeId: Id, p: Prepared)
    requires request.mode == Apply && SnapshotPrepared(OwnerOf(c, live), request, changeId, p)
    requires Committed(c.engine, live.book.doc, request).Some?
    ensures p.response.ops == Succeeded(RunOps(c.engine, live.book.doc, request.ops, !request.atomic).results)
  {
    var run := RunOps(c.engine, live.book.doc, request.ops, !request.atomic);
    assert request.atomic ==> run.failure.None?;
    assert p.publication.Snapshot?;
    hide RunOps, Succeeded, Committed, PreservesCalculation;
    AppliedIsReported(request, live.book.revision, Predicted(live.book.revision, true), run.results, run.failure);
  }

  lemma SnapshotApplies(c: Context, live: Live, request: Request, changeId: Id, p: Prepared)
    requires request.mode == Apply && SnapshotPrepared(OwnerOf(c, live), request, changeId, p)
    requires !CellsOnly(request.ops)
    requires PublishedBook(live.book, p.publication).Some?
    ensures Applies(c, live, PublishedBook(live.book, p.publication).value, request, p.response.ops)
  {
    hide RunOps, Succeeded, Respond, Committed;
    if Committed(c.engine, live.book.doc, request).Some? {
      CommitIsReported(c, live, request, changeId, p);
    }
  }

  lemma PublishedApplies(c: Context, live: Live, request: Request, changeId: Id, p: Prepared)
    requires request.mode == Apply && PreparedFor(OwnerOf(c, live), request, changeId, p)
    requires PublishedBook(live.book, p.publication).Some?
    ensures Applies(c, live, PublishedBook(live.book, p.publication).value, request, p.response.ops)
    ensures p.staged == None
  {
    hide Applies, CommonPrepared, SnapshotPrepared, PublishedBook;
    assert AllCommon(request.ops) <==> CellsOnly(request.ops);
    StagedBundleIsReported(OwnerOf(c, live), request, changeId, p);
    if AllCommon(request.ops) {
      CellsApply(c, live, request, changeId, p);
    } else {
      SnapshotApplies(c, live, request, changeId, p);
    }
  }

  /** Nothing of the request may stand: an operation fails where all must succeed. */
  predicate Fails(engine: Engine, d: Doc, request: Request) {
    !AllSucceed(engine, d, request.ops) && (request.mode != Apply || request.atomic)
  }

  lemma FailuresAreReported(o: Owner, req: Request, changeId: Id, p: Prepared)
    requires PreparedFor(o, req, changeId, p)
    ensures p.response.kind.WasFailed? || p.response.kind.WasRolledBack? <==> Fails(o.engine, o.doc, req)
  {
    RunIsExactPrefix(o.engine, o.doc, req.ops, true);
    RunIsExactPrefix(o.engine, o.doc, req.ops, false);
    hide RunOps, Succeeded, AllSucceed, EffectsBetween, Committed, SnapshotPublication;
  }

  /** A first write is answered with its own report; what fails or only previews leaves no trace. */
  lemma WriteTakesEffect(
    c: Context, w: World, requestId: Id, commitId: Id, request: Request, changeId: Id, prepared: Option<Prepared>,
    f: Faults)
    requires Served(c, w, requestId, commitId, WriteOn(request, changeId, prepared), f)
    ensures
      var w' := After(c, w, requestId, commitId, WriteOn(request, changeId, prepared), f);
      var live := w.live.value;
      var idle := request.mode == Preview || Fails(c.engine, live.book.doc, request);
      && w'.live.Some? && prepared.Some?
      && request.resource == c.shelf.session && request.expected == live.book.revision
      && Step(c, w, Ask(requestId, commitId, WriteOn(request, changeId, prepared), f)).1
           == Ok(Wrote(prepared.value.response))
      && (idle ==> w' == w)
      && (!idle ==> |w'.js| == |w.js| + 1)
      && (!idle && request.mode == Apply ==>
            && Applies(c, live, w'.live.value.book, request, prepared.value.response.ops)
            && w'.live.value.staged == live.staged && w'.live.value.generation == live.generation)
      && (!idle && request.mode == Stage ==>
            && w'.live.value.book == live.book && changeId !in live.staged
            && w'.live.value.staged
               == live.staged[changeId := Bundle(live.book.revision, true, request.ops, request.title)]
            && w'.live.value.generation == live.generation + 1)
  {
    hide Replay, InSync, Rebuildable, Step, FirstWith, PreparedFor, Applies, Fails, PublishedBook, Admissible,
      WriteRecord;
    ServedIsPublished(c, w, requestId, commitId, WriteOn(request, changeId, prepared), f);
    var live := w.live.value;
    var a := WriteAttempt(c, w.js, live, requestId, commitId, f.readable, request, None, prepared);
    assert prepared.Some? && PreparedFor(OwnerOf(c, live), request, changeId, prepared.value);
    IsCurrent(OwnerOf(c, live), request, changeId, prepared.value);
    FailuresAreReported(OwnerOf(c, live), request, changeId, prepared.value);
    StagedBundleIsReported(OwnerOf(c, live), request, changeId, prepared.value);
    PreparedIsUsable(OwnerOf(c, live), request, changeId, prepared.value);
    if a.Proposed? && request.mode == Apply {
      PublishedApplies(c, live, request, changeId, prepared.value);
    }
  }

  lemma IsCurrent(o: Owner, req: Request, changeId: Id, p: Prepared)
    requires PreparedFor(o, req, changeId, p)
    ensures req.resource == o.resource && req.expected == o.revision
    ensures p.consume == None
    ensures req.mode != Apply ==> p.publication == NoPublication
  {
  }

  /** Applying a staged change applies its operations, and takes the change off the list. */
  lemma ApplyStagedTakesEffect(
    c: Context, w: World, requestId: Id, commitId: Id, change: Id, expected: Revision, prepared: Option<Prepared>,
    f: Faults)
    requires Served(c, w, requestId, commitId, Op.ApplyStaged(change, expected, prepared), f)
    ensures change in w.live.value.staged
    ensures
      var op := Op.ApplyStaged(change, expected, prepared);
      var w' := After(c, w, requestId, commitId, op, f);
      var live := w.live.value;
      var bundle := live.staged[change];
      var request := Request(c.shelf.session, expected, Apply, bundle.atomic, bundle.ops, None);
      var idle := Fails(c.engine, live.book.doc, request);
      && w'.live.Some? && prepared.Some? && bundle.base == expected == live.book.revision
      && Step(c, w, Ask(requestId, commitId, op, f)).1 == Ok(Wrote(prepared.value.response))
      && (idle ==> w' == w)
      && (!idle ==>
            && |w'.js| == |w.js| + 1
            && Applies(c, live, w'.live.value.book, request, prepared.value.response.ops)
            && w'.live.value.staged == live.staged - {change} && w'.live.value.generation == live.generation + 1)
  {
    hide Replay, InSync, Rebuildable, Step, FirstWith, PreparedFor, Applies, Fails, PublishedBook, Admissible,
      WriteRecord;
    hide Enter;
    var op := Op.ApplyStaged(change, expected, prepared);
    ServedIsPublished(c, w, requestId, commitId, op, f);
    ServedEnters(c, w, requestId, f.readable);
    var live := w.live.value;
    var a := ApplyStagedAttempt(c, w.js, live, requestId, commitId, f.readable, change, expected, prepared);
    var request := ApplyRequest(c, expected, live.staged[change]);
    assert prepared.Some? && PreparedFor(OwnerOf(c, live), request, "", prepared.value);
    IsCurrent(OwnerOf(c, live), request, "", prepared.value);
    FailuresAreReported(OwnerOf(c, live), request, "", prepared.value);
    if a.Proposed? {
      PublishedApplies(c, live, request, "", prepared.value);
    }
  }

  lemma ServedEnters(c: Context, w: World, requestId: Id, readable: bool)
    requires Good(c, w) && w.live.Some? && FirstWith(w.js, requestId).None? && readable
    ensures Enter(c, w.js, w.live.value, requestId, readable).Open?
  {
  }

  /** Moves, branches, checkpoints and revocations are answered with the revision the session then has. */
  lemma RepliesNameTheRevision(c: Context, w: World, requestId: Id, commitId: Id, op: Op, f: Faults)
    requires Served(c, w, requestId, commitId, op, f)
    requires !op.WriteOn? && !op.ApplyStaged? && !op.DiscardStaged? && !op.Recalculate?
    ensures
      var w' := After(c, w, requestId, commitId, op, f);
      w'.live.Some? && Step(c, w, Ask(requestId, commitId, op, f)).1 == Ok(At(w'.live.value.book.revision))
  {
    hide Replay, InSync, Rebuildable, Step, WellPrepared, FirstWith, HeadDoc, BranchTarget, RedoTarget, Enter;
    ServedIsPublished(c, w, requestId, commitId, op, f);
  }

  // ---- what never comes to storage ----

  predicate NamesDocument(js: seq<Record>, id: Id) {
    exists i | 0 <= i < |js| :: js[i].commitId == id && (js[i].transition.Mutation? || js[i].transition.StageApply?)
  }

  /** What a request names is not there, or the request itself will not do. */
  predicate Hopeless(c: Context, js: seq<Record>, h: HistoryState, live: Live, op: Op) {
    match op
    case WriteOn(request, _, _) => !Admissible(OwnerOf(c, live), request)
    case ApplyStaged(change, expected, _) =>
      change !in live.staged || live.staged[change].base != live.book.revision || expected != live.book.revision
    case CheckoutAt(target) => !NamesDocument(js, target)
    case NewBranch(name, from, title) =>
      || !ValidBranchRequest(name, from, title) || name in h.branches
      || (from.Some? && from.value != "base" && !NamesDocument(js, from.value))
    case ToBranch(name) => name !in h.branches
    case RestoreCheckpoint(id) => id !in h.checkpoints
    case DeleteCheckpoint(id) => id !in h.checkpoints
    case _ => false
  }

  /** Such a request is refused before storage is asked, so not even a failing storage can do harm. */
  lemma HopelessIsRefused(c: Context, w: World, requestId: Id, commitId: Id, op: Op, f: Faults)
    requires Good(c, w) && w.live.Some? && WellPrepared(c, w.live.value, op) && FirstWith(w.js, requestId).None?
    requires Hopeless(c, w.js, HistoryOf(c, w.js), w.live.value, op)
    ensures Step(c, w, Ask(requestId, commitId, op, f)) == (w, Err)
  {
    hide Rebuildable, DocAt, StagedBy, SameLogic, ControlAttempt, PreparedFor, ValidBranchRequest;
    if w.js != [] {
      LastRecordStands(c.shelf.session, c.shelf.base, w.js);
    }
    hide Replay;
  }
}
