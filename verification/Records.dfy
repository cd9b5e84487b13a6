/**
  What may stand next to what in a journal: how each record that replay accepts continues the one
  before it.
 */
module Records {
  import opened Wrappers
  import opened Documents
  import opened Writes
  import opened Preparation
  import opened History
  import opened Ancestry

  /** Where the journal stands before a record, as the record before it says. */
  datatype Place = Place(
    last: Option<Record>, head: Option<Id>, branch: Id, branches: map<Id, Option<Id>>, generation: nat)

  function PlaceBefore(js: seq<Record>, i: nat): Place
    requires i <= |js|
  {
    if i == 0 then Place(None, None, "main", map["main" := None], 0)
    else
      var r := js[i - 1];
      Place(Some(r), r.head, r.branch, r.branches, r.generation)
  }

  /** Identity, ancestry in the stream, and the counters. */
  predicate Continues(session: Id, base: Doc, at: Place, r: Record) {
    && r.session == session && r.base == base && r.commitId != "" && r.requestId != "" && r.revision.epoch != ""
    && r.parent == (if at.last.Some? then Some(at.last.value.commitId) else None)
    && r.generation == at.generation
         + (if r.transition in {CatalogStage, CatalogDiscard, StageApply, Checkpoint, CheckpointDelete} then 1 else 0)
    && (at.last.Some? ==>
          var was := at.last.value.revision;
          && r.revision.epoch == was.epoch
          && r.revision.document
             == was.document
                + (if Publishes(r) || r.transition in {Undo, Redo, Checkout}
                  || (r.transition == BranchSwitch && r.head != at.head)
                   then 1 else 0)
          && r.revision.state
             == was.state
                + (if r.transition in {CatalogStage, CatalogDiscard, Checkpoint, CheckpointDelete, Receipt}
                     || (r.transition == StageApply && !Publishes(r))
                   then 0 else 1))
  }

  /** The prepared transaction a record carries belongs to it. */
  predicate CarriesItsOwn(at: Place, r: Record) {
    && (r.effects.outcome.Some? ==>
          var o := r.effects.outcome.value;
          o.core == r.fingerprint && o.response.revision == r.revision && o.response.session == r.session)
    && match r.effects.prepared
       case None => r.transition !in {Mutation, StageApply, CatalogStage}
       case Some(p) =>
         && p.base == r.base && p.response.after == r.revision
         && (at.last.Some? ==> p.response.before == at.last.value.revision)
         && r.transition in {Mutation, StageApply, CatalogStage, Receipt}
         && (r.transition == Mutation ==> Publishes(r))
         && (Publishes(r) ==> r.transition in {Mutation, StageApply})
         && (p.staged.Some? <==> r.transition == CatalogStage) && (p.consume.Some? <==> r.transition == StageApply)
         && (p.publication.Cells? ==>
               && p.publication.effects != [] && DistinctTargets(p.publication.effects)
               && forall i | 0 <= i < |p.publication.effects| :: InGrid(p.publication.effects[i].addr))
  }

  /** Head, branch and branches after a record. */
  predicate Moves(at: Place, r: Record) {
    var stays := r.head == at.head && r.branch == at.branch && r.branches == at.branches;
    && r.historyParent == (if Publishes(r) then at.head else None)
    && match r.transition
       case Undo => r.branch == at.branch && r.branches == at.branches && r.effects.target == Some(r.head)
       case Redo => r.branch == at.branch && r.branches == at.branches && r.effects.target == Some(r.head)
       case Checkout => r.branch == at.branch && r.branches == at.branches && r.effects.target == Some(r.head)
       case BranchSwitch =>
         && r.effects.branchName == Some(r.branch) && r.branch in at.branches && r.branches == at.branches
         && r.head == at.branches[r.branch]
       case BranchCreate =>
         && r.head == at.head && r.branch == at.branch && r.effects.branchName.Some?
         && r.effects.branchName.value !in at.branches
         && r.branches
            == at.branches[r.effects.branchName.value := r.effects.branchTarget.GetOr(at.head)]
       case _ =>
         if Publishes(r) then
           && r.head == Some(r.commitId) && r.branch == at.branch
           && r.branches == at.branches[at.branch := Some(r.commitId)]
         else stays
  }

  /** Proofs are complete and of their own revision; markers mark. */
  predicate Proves(r: Record) {
    && (r.transition == CalculationPublish ==>
          r.effects.calculation.Some? && r.effects.calculation.value.complete
          && r.effects.calculation.value.revision == r.revision)
    && (r.transition == CalculationInvalidate ==> r.effects.revocation)
    && (r.transition == Restart ==> r.effects.restart)
  }

  /** What a record may refer to, in the history before it. */
  predicate Refers(h: HistoryState, r: Record) {
    match r.transition
    case Undo => r.head == if h.head.Some? && h.head.value in h.parents then h.parents[h.head.value] else None
    case Redo =>
      && RedoTarget(h) == Ok(r.head)
      && (if r.head.Some? then r.head.value in h.parents && h.parents[r.head.value] == h.head else h.head == None)
    case Checkout => r.head.Some? ==> r.head.value in h.parents
    case BranchCreate =>
      r.effects.branchTarget.Some? && r.effects.branchTarget.value.Some? ==>
        r.effects.branchTarget.value.value in h.parents
    case CatalogStage => r.effects.prepared.Some? && r.effects.prepared.value.staged.Some?
      && r.effects.prepared.value.staged.value.0 !in h.catalog
    case StageApply => r.effects.prepared.Some? && r.effects.prepared.value.consume.Some?
      && r.effects.prepared.value.consume.value in h.catalog
    case CatalogDiscard => r.effects.discard.Some? && r.effects.discard.value in h.catalog
    case CheckpointDelete => r.effects.checkpoint.Some? && r.effects.checkpoint.value in h.checkpoints
    case Receipt =>
      (match r.effects.receiptOf
       case None => r.effects.prepared.Some?
       case Some(of) =>
         && of in {Undo, Redo, CatalogDiscard, CalculationInvalidate}
         && (of == Undo ==> h.head == None)
         && (of == Redo ==> RedoTarget(h) == Ok(None))
         && (of == CatalogDiscard ==> r.effects.discard.Some? && r.effects.discard.value !in h.catalog))
    case _ => true
  }

  /** A place and the history before it say the same. */
  predicate StandsAt(h: HistoryState, at: Place) {
    && at.head == h.head && at.branch == h.branch && at.branches == h.branches && at.generation == h.generation
    && h.revision == (if at.last.Some? then Some(at.last.value.revision) else None)
    && h.tip == (if at.last.Some? then Some(at.last.value.commitId) else None)
  }

  lemma PublishingMoves(h: HistoryState, r: Record, h': HistoryState, at: Place)
    requires Admit(h, r) == Some(h') && StandsAt(h, at) && CarriesDocument(r.transition)
    ensures Moves(at, r)
  {
    if r.transition == StageApply {
      var published := PublishDocument(h, r).value;
      UnlistingKeepsHeads(published, r.effects.prepared.value.consume, Advance(h, r).value);
    }
    hide Unlist, RevisionAfter, OutcomeBound;
  }

  lemma BranchingMoves(h: HistoryState, r: Record, h': HistoryState, at: Place)
    requires Admit(h, r) == Some(h') && StandsAt(h, at) && r.transition.BranchCreate?
    ensures Moves(at, r)
  {
    hide RevisionAfter, OutcomeBound, Known;
  }

  predicate Jumps(t: Transition) {
    t.Undo? || t.Redo? || t.Checkout? || t.BranchSwitch?
  }

  lemma JumpingMoves(h: HistoryState, r: Record, h': HistoryState, at: Place)
    requires Admit(h, r) == Some(h') && StandsAt(h, at) && Jumps(r.transition)
    ensures Moves(at, r)
  {
    hide Unlist, PublishDocument, CreateBranch, ReceiptAllowed, RedoTarget, RevisionAfter, OutcomeBound, Known,
      ParentOf;
  }

  lemma QuietAdvance(h: HistoryState, r: Record, moved: HistoryState)
    requires Advance(h, r) == Some(moved)
    requires !CarriesDocument(r.transition) && !r.transition.BranchCreate? && !Jumps(r.transition)
    ensures moved.head == h.head && moved.branch == h.branch && moved.branches == h.branches
    ensures r.historyParent == None
  {
    if r.transition.CatalogDiscard? {
      UnlistingKeepsHeads(h, r.effects.discard, moved);
    }
    hide Unlist, PublishDocument, CreateBranch, ReceiptAllowed, RedoTarget, Known, ParentOf;
  }

  lemma ControlMoves(h: HistoryState, r: Record, h': HistoryState, at: Place)
    requires Admit(h, r) == Some(h') && StandsAt(h, at)
    requires !CarriesDocument(r.transition) && !r.transition.BranchCreate?
    ensures Moves(at, r)
  {
    if Jumps(r.transition) {
      JumpingMoves(h, r, h', at);
    } else {
      QuietAdvance(h, r, Advance(h, r).value);
      hide Advance, RevisionAfter, OutcomeBound;
    }
  }

  lemma AdmittedMoves(h: HistoryState, r: Record, h': HistoryState, at: Place)
    requires Admit(h, r) == Some(h') && StandsAt(h, at)
    ensures Moves(at, r)
  {
    hide Admit, Moves;
    if CarriesDocument(r.transition) {
      PublishingMoves(h, r, h', at);
    } else if r.transition.BranchCreate? {
      BranchingMoves(h, r, h', at);
    } else {
      ControlMoves(h, r, h', at);
    }
  }

  lemma AdmittedRefers(h: HistoryState, r: Record, h': HistoryState)
    requires Admit(h, r) == Some(h')
    ensures Refers(h, r)
  {
    PartsKeepCounts(h, r);
    hide RedoTarget, RevisionAfter, OutcomeBound, PublishDocument;
  }

  lemma AdmittedCarries(h: HistoryState, r: Record, h': HistoryState, at: Place)
    requires Admit(h, r) == Some(h') && StandsAt(h, at)
    ensures CarriesItsOwn(at, r) && Proves(r)
  {
    hide RedoTarget, RevisionAfter, PublishDocument, ReceiptAllowed, Unlist, CreateBranch;
  }

  lemma GenerationMoves(h: HistoryState, r: Record, moved: HistoryState)
    requires Advance(h, r) == Some(moved)
    ensures moved.generation
      == h.generation
         + (if r.transition in {CatalogStage, CatalogDiscard, StageApply, Checkpoint, CheckpointDelete} then 1 else 0)
  {
    PartsKeepCounts(h, r);
    hide RedoTarget, ReceiptAllowed, Known, ParentOf, PublishDocument, CreateBranch;
  }

  lemma AdmittedContinues(session: Id, base: Doc, h: HistoryState, r: Record, h': HistoryState, at: Place)
    requires Admit(h, r) == Some(h') && h.session == session && h.base == base && StandsAt(h, at)
    ensures Continues(session, base, at, r)
  {
    GenerationMoves(h, r, Advance(h, r).value);
    hide Advance, ValidPrepared, OutcomeBound;
  }

  /** Every record of a replayable journal continues the one before it and refers only to what is there. */
  lemma RecordsContinue(session: Id, base: Doc, js: seq<Record>, i: nat)
    requires Replay(session, base, js).Some? && i < |js|
    ensures Replay(session, base, js[..i]).Some?
    ensures
      var at, h, r := PlaceBefore(js, i), Replay(session, base, js[..i]).value, js[i];
      && StandsAt(h, at)
      && Continues(session, base, at, r) && CarriesItsOwn(at, r) && Moves(at, r) && Proves(r) && Refers(h, r)
  {
    hide Admit, Continues, CarriesItsOwn, Moves, Proves, Refers;
    ReplayPrefix(session, base, js, i);
    ReplayPrefix(session, base, js, i + 1);
    assert js[..i + 1][..i] == js[..i];
    LastAdmitted(session, base, js[..i + 1]);
    if i > 0 {
      LastRecordStands(session, base, js[..i]);
    }
    var at, h, h', r := PlaceBefore(js, i), Replay(session, base, js[..i]).value,
      Replay(session, base, js[..i + 1]).value, js[i];
    assert StandsAt(h, at);
    hide Replay;
    AdmittedContinues(session, base, h, r, h', at);
    AdmittedCarries(h, r, h', at);
    AdmittedMoves(h, r, h', at);
    AdmittedRefers(h, r, h');
  }
}
