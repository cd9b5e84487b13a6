/**
  What it takes to be served: with healthy storage and new identities a request succeeds exactly if
  what it asks for can be had, and both can be checked before asking.
 */
module Service {
  import opened Wrappers
  import opened Documents
  import opened Writes
  import opened Preparation
  import opened History
  import opened Ancestry
  import opened Journals
  import opened Protocol
  import opened Soundness
  import opened Runs
  import opened Guarantees

  /** Preparation left something to journal. */
  predicate Commits(prepared: Option<Prepared>) {
    prepared.Some? && !prepared.value.response.kind.WasFailed? && !prepared.value.response.kind.WasRolledBack?
  }

  /** What a request asks for can be had, read off session and history. */
  predicate Admitted(c: Context, h: HistoryState, live: Live, op: Op) {
    match op
    case WriteOn(request, changeId, prepared) =>
      && Admissible(OwnerOf(c, live), request)
      && (request.mode.Stage? && Commits(prepared) ==> changeId !in live.staged)
    case ApplyStaged(change, expected, _) =>
      && change in live.staged && live.staged[change].base == live.book.revision == expected
      && ValidRequest(
           Request(
             c.shelf.session, expected, Apply, live.staged[change].atomic, live.staged[change].ops, None))
    case CheckoutAt(target) => target in h.parents
    case NewBranch(name, from, title) =>
      && ValidBranchRequest(name, from, title) && name !in h.branches
      && (from.Some? && from.value != "base" ==> from.value in h.parents)
    case ToBranch(name) => name in h.branches
    case RestoreCheckpoint(id) => id in h.checkpoints
    case DeleteCheckpoint(id) => id in h.checkpoints
    case Recalculate(_, evaluation) => evaluation.Some? && OnFormulas(live.book.doc, evaluation.value)
    case _ => true
  }

  /** The attempt ends well on healthy storage. */
  predicate EndsWell(a: Attempt, acceptable: bool) {
    a.Answered? || (a.Proposed? && acceptable)
  }

  lemma MovesEndWell(c: Context, js: seq<Record>, h: HistoryState, live: Live, requestId: Id, commitId: Id, op: Op)
    requires Ready(c, js, h, live) && requestId !in h.requestIds && requestId != ""
    requires op.UndoOnce? || op.RedoOnce? || op.CheckoutAt? || op.ToBranch? || op.RestoreCheckpoint?
    ensures EndsWell(AttemptOf(c, js, live, requestId, commitId, true, op), Acceptable(h, live, op)) <==>
      Admitted(c, h, live, op)
  {
    hide Replay, HeadDoc, Enter, RedoTarget, InSync, Rebuildable, ControlAttempt;
    OpenGate(c, js, h, live, requestId, true);
    UndoIsOpen(c, js, h, live, requestId, commitId);
    match op
    case CheckoutAt(x) => JumpsAreOpen(c, js, h, live, requestId, commitId, x);
    case ToBranch(x) => JumpsAreOpen(c, js, h, live, requestId, commitId, x);
    case RestoreCheckpoint(x) => JumpsAreOpen(c, js, h, live, requestId, commitId, x);
    case _ =>
  }

  lemma NewBranchEndsWell(
    c: Context, js: seq<Record>, h: HistoryState, live: Live, requestId: Id, commitId: Id, name: Id, from: Option<Id>,
    title: Option<string>)
    requires Ready(c, js, h, live) && requestId !in h.requestIds && requestId != ""
    ensures
      var op := NewBranch(name, from, title);
      EndsWell(AttemptOf(c, js, live, requestId, commitId, true, op), Acceptable(h, live, op)) <==>
        Admitted(c, h, live, op)
  {
    hide Replay, Enter, InSync, Rebuildable, ValidBranchRequest, BranchTarget, BranchEffects, BaseRecord;
    OpenGate(c, js, h, live, requestId, true);
    if from.Some? && from.value != "base" ==> from.value in h.parents {
      KnownTargetsResolve(c, js, h, from);
    }
  }

  lemma KnownTargetsResolve(c: Context, js: seq<Record>, h: HistoryState, target: Option<Id>)
    requires Replay(c.shelf.session, c.shelf.base, js) == Some(h)
    requires target.Some? && target.value != "base" ==> target.value in h.parents
    ensures BranchTarget(js, h, target).Some?
  {
    HistoryTreeIsSound(c.shelf.session, c.shelf.base, js);
    DocumentsCarry(c, js, h);
    hide Replay;
    if target.Some? && target.value in h.parents {
      assert ParentIsOlder(js, h, target.value);
    }
  }

  /** A publishing record is of a kind that carries documents. */
  lemma {:induction false} DocumentsCarry(c: Context, js: seq<Record>, h: HistoryState)
    requires Replay(c.shelf.session, c.shelf.base, js) == Some(h)
    ensures forall i | 0 <= i < |js| && Publishes(js[i]) :: CarriesDocument(js[i].transition)
  {
    hide Admit;
    if js != [] {
      var older, r := js[..|js| - 1], js[|js| - 1];
      LastAdmitted(c.shelf.session, c.shelf.base, js);
      hide Replay;
      var before := Replay(c.shelf.session, c.shelf.base, older).value;
      DocumentsCarry(c, older, before);
      if Publishes(r) {
        AdmittedCarries(before, r);
      }
    }
  }

  lemma AdmittedCarries(h: HistoryState, r: Record)
    requires Admit(h, r).Some? && Publishes(r)
    ensures CarriesDocument(r.transition)
  {
    assert ValidPrepared(r, h.revision);
  }

  lemma ControlsEndWell(c: Context, js: seq<Record>, h: HistoryState, live: Live, requestId: Id, commitId: Id, op: Op)
    requires Ready(c, js, h, live) && requestId !in h.requestIds && requestId != ""
    requires op.DiscardStaged? || op.SaveCheckpoint? || op.DeleteCheckpoint? || op.RevokeCalculation?
    ensures EndsWell(AttemptOf(c, js, live, requestId, commitId, true, op), Acceptable(h, live, op)) <==>
      Admitted(c, h, live, op)
  {
    OpenGate(c, js, h, live, requestId, true);
    hide Replay, Enter, InSync, Rebuildable;
  }

  lemma WriteEndsWell(
    c: Context, js: seq<Record>, h: HistoryState, live: Live, requestId: Id, commitId: Id,
    request: Request, consume: Option<Id>, changeId: Id, prepared: Option<Prepared>)
    requires Ready(c, js, h, live) && requestId !in h.requestIds && requestId != ""
    requires PreparationOf(c, live, request, changeId, prepared)
    ensures
      var a := WriteAttempt(c, js, live, requestId, commitId, true, request, consume, prepared);
      && (a.Answered? || a.Proposed? <==> Admissible(OwnerOf(c, live), request))
      && (a.Proposed? <==> Admissible(OwnerOf(c, live), request) && !request.mode.Preview? && Commits(prepared))
  {
    hide Rebuildable, PreparedFor;
    OpenGate(c, js, h, live, requestId, true);
    if js != [] {
      LastRecordStands(c.shelf.session, c.shelf.base, js);
    }
    hide Replay, StagedBy, DocAt, ValidRequest, FirstWith, PublishPrepared;
  }

  lemma AttemptsEndWell(c: Context, js: seq<Record>, h: HistoryState, live: Live, requestId: Id, commitId: Id, op: Op)
    requires Ready(c, js, h, live) && requestId !in h.requestIds && requestId != ""
    requires WellPrepared(c, live, op) && SaneEvaluation(live, op)
    ensures EndsWell(AttemptOf(c, js, live, requestId, commitId, true, op), Acceptable(h, live, op)) <==>
      Admitted(c, h, live, op)
  {
    hide Replay, Enter, InSync, Rebuildable, PreparationOf, ValidRequest, WriteAttempt;
    OpenGate(c, js, h, live, requestId, true);
    match op
    case WriteOn(request, changeId, prepared) =>
      WriteEndsWell(c, js, h, live, requestId, commitId, request, None, changeId, prepared);
    case ApplyStaged(change, expected, prepared) =>
      if change in live.staged {
        WriteEndsWell(
          c, js, h, live, requestId, commitId, ApplyRequest(c, expected, live.staged[change]), Some(change), "",
          prepared);
      }
    case Recalculate(_, _) =>
    case NewBranch(name, from, title) => NewBranchEndsWell(c, js, h, live, requestId, commitId, name, from, title);
    case UndoOnce => MovesEndWell(c, js, h, live, requestId, commitId, op);
    case RedoOnce => MovesEndWell(c, js, h, live, requestId, commitId, op);
    case CheckoutAt(_) => MovesEndWell(c, js, h, live, requestId, commitId, op);
    case ToBranch(_) => MovesEndWell(c, js, h, live, requestId, commitId, op);
    case RestoreCheckpoint(_) => MovesEndWell(c, js, h, live, requestId, commitId, op);
    case _ => ControlsEndWell(c, js, h, live, requestId, commitId, op);
  }

  /** At every point of every run, healthy storage serves a request under new identities exactly if it can be had. */
  lemma RequestsAreServedIffAdmitted(c: Context, w: World, h: HistoryState, requestId: Id, commitId: Id, op: Op)
    requires Good(c, w) && w.live.Some? && Replay(c.shelf.session, c.shelf.base, w.js) == Some(h)
    requires WellPrepared(c, w.live.value, op)
    requires requestId != "" && requestId !in h.requestIds && commitId != "" && commitId !in h.commitIds
    requires
      var a := AttemptOf(c, w.js, w.live.value, requestId, commitId, true, op);
      a.Proposed? ==> Bytes(c.shelf, w.js) + |c.shelf.encode(a.record)| + 1 <= JOURNAL_CAP
    ensures
      Step(c, w, Ask(requestId, commitId, op, Faults(true, NoFault, true))).1.Ok? <==> Admitted(c, h, w.live.value, op)
  {
    hide Bytes, Replay, AttemptOf, Acceptable, InSync, Rebuildable, WellPrepared;
    var live, f := w.live.value, Faults(true, NoFault, true);
    var a := AttemptOf(c, w.js, live, requestId, commitId, true, op);
    if SaneEvaluation(live, op) {
      hide Admitted;
      AttemptsEndWell(c, w.js, h, live, requestId, commitId, op);
      if a.Proposed? {
        HealthyStorageDecides(c, w, h, requestId, commitId, op, f);
      }
    } else {
      CalculationIsAttempt(c, w.js, live, requestId, commitId, true, op);
      StrayResultsFail(c, w.js, h, live, requestId, commitId, op.timeout, op.evaluation);
    }
  }

  lemma StrayResultsFail(
    c: Context, js: seq<Record>, h: HistoryState, live: Live, requestId: Id, commitId: Id,
    timeout: Option<nat>, evaluation: Option<map<Addr, string>>)
    requires Ready(c, js, h, live) && requestId !in h.requestIds
    requires evaluation.Some? && !OnFormulas(live.book.doc, evaluation.value)
    ensures
      var a := RecalculateAttempt(c, js, live, requestId, commitId, true, timeout, evaluation);
      a.Refused? || (a.Proposed? && a.next.None?)
  {
    OpenGate(c, js, h, live, requestId, true);
    hide Replay, Enter, InSync, Rebuildable;
  }

  // ---- recovery ----

  lemma RestartIsAdmittedIffNew(
    c: Context, js: seq<Record>, h: HistoryState, restartId: Id, commitId: Id, epoch: string)
    requires Good(c, World(js, None)) && js != [] && Replay(c.shelf.session, c.shelf.base, js) == Some(h)
    requires Rebuilt(c, js, epoch).Some?
    ensures Admit(h, RestartRecord(c, h, Rebuilt(c, js, epoch).value, restartId, commitId)).Some? <==>
      Unseen(h, restartId, commitId)
  {
    hide Replay, Rebuildable, DocAt, StagedBy;
    HistoryIsBounded(c.shelf.session, c.shelf.base, js);
    EpochIsNamed(c.shelf.session, c.shelf.base, js);
  }

  lemma EpochIsNamed(session: Id, base: Doc, js: seq<Record>)
    requires Replay(session, base, js).Some? && js != []
    ensures
      var revision := Replay(session, base, js).value.revision;
      revision.Some? && revision.value.epoch != ""
  {
    LastAdmitted(session, base, js);
    hide Replay, Advance, ValidPrepared;
  }

  /** What recovery on healthy storage would append, or nothing on an empty journal. */
  function RestartOf(c: Context, js: seq<Record>, call: Call): seq<Record>
    requires call.Recover? && Replay(c.shelf.session, c.shelf.base, js).Some? && Rebuilt(c, js, call.epoch).Some?
  {
    if js == [] then []
    else
      var h := Replay(c.shelf.session, c.shelf.base, js).value;
      [RestartRecord(c, h, Rebuilt(c, js, call.epoch).value, call.restartId, call.commitId)]
  }

  /**
    At every point of every run, recovery on healthy storage hands out the rebuilt session, its restart
    journalled, exactly if the restart's identities are new or there is nothing to restart.
   */
  lemma RecoveryIsServedIffNew(c: Context, js: seq<Record>, h: HistoryState, call: Call)
    requires Good(c, World(js, None)) && Replay(c.shelf.session, c.shelf.base, js) == Some(h)
    requires call.Recover? && call.epoch != "" && call.faults == Faults(true, NoFault, true)
    requires Rebuilt(c, js, call.epoch).Some? ==>
      forall r | r in RestartOf(c, js, call) :: Bytes(c.shelf, js) + |c.shelf.encode(r)| + 1 <= JOURNAL_CAP
    ensures Rebuilt(c, js, call.epoch).Some?
    ensures
      var w := Recovered(c, js, call);
      && (w.live.Some? <==> js == [] || Unseen(h, call.restartId, call.commitId))
      && (w.live.Some? ==> Good(c, w) && w == World(js + RestartOf(c, js, call), Rebuilt(c, js, call.epoch)))
  {
    hide Bytes, Replay, Rebuildable, InSync, Rebuilt, RestartRecord, Unseen, Admit;
    RebuiltIsInStep(c, js, call.epoch);
    RecoverKeepsGood(c, World(js, None), call);
    if js == [] {
      assert js + RestartOf(c, js, call) == js;
    } else {
      RestartSettles(c, js, h, call);
    }
  }

  lemma RestartSettles(c: Context, js: seq<Record>, h: HistoryState, call: Call)
    requires Good(c, World(js, None)) && Replay(c.shelf.session, c.shelf.base, js) == Some(h) && js != []
    requires call.Recover? && call.faults == Faults(true, NoFault, true) && Rebuilt(c, js, call.epoch).Some?
    requires forall r | r in RestartOf(c, js, call) :: Bytes(c.shelf, js) + |c.shelf.encode(r)| + 1 <= JOURNAL_CAP
    ensures
      var r := RestartOf(c, js, call)[0];
      CommitTo(c.shelf, js, r, NoFault).0 == if Unseen(h, call.restartId, call.commitId) then js + [r] else js
    ensures
      var r := RestartOf(c, js, call)[0];
      Unseen(h, call.restartId, call.commitId) ==> CommitTo(c.shelf, js, r, NoFault).1.Ok?
  {
    hide Bytes, Replay, Rebuildable, InSync, Rebuilt, Admit;
    var r := RestartOf(c, js, call)[0];
    assert r in RestartOf(c, js, call) && r.requestId == call.restartId && r.commitId == call.commitId;
    RestartIsAdmittedIffNew(c, js, h, call.restartId, call.commitId, call.epoch);
    RequestIdsAreListed(c.shelf.session, c.shelf.base, js);
    ReplaySnoc(c, js, h, r);
    hide RestartOf, RestartRecord;
  }

  // ---- poisoning ----

  lemma BreaksOnlyEvaluating(
    c: Context, js: seq<Record>, h: HistoryState, live: Live, requestId: Id, commitId: Id, readable: bool, op: Op)
    requires Ready(c, js, h, live) && AttemptOf(c, js, live, requestId, commitId, readable, op).Broken?
    ensures op.Recalculate? && op.evaluation.None?
  {
    hide Rebuildable, Replay, DocAt, StagedBy, HeadDoc, RedoTarget, FirstWith;
    if js != [] {
      LastRecordStands(c.shelf.session, c.shelf.base, js);
    }
  }

  /**
    What poisons: an evaluation that failed, a stored calculation with results outside formula cells,
    or a commit without acknowledgement whose reconciliation went unanswered; nothing else does.
   */
  lemma PoisonIsExplained(c: Context, w: World, requestId: Id, commitId: Id, op: Op, f: Faults)
    requires Good(c, w) && w.live.Some? && WellPrepared(c, w.live.value, op)
    ensures
      var a := AttemptOf(c, w.js, w.live.value, requestId, commitId, f.readable, op);
      && (a.Broken? ==> op.Recalculate? && op.evaluation.None?)
      && (Step(c, w, Ask(requestId, commitId, op, f)).0.live.None? <==>
            || a.Broken?
            || (a.Proposed?
                && var (js', durable) := CommitTo(c.shelf, w.js, a.record, f.fault);
                   (durable.Err? && !f.answers) || (js' != w.js && !SaneEvaluation(w.live.value, op))))
  {
    hide Bytes, Replay, AttemptOf, InSync, Rebuildable, WellPrepared, SaneEvaluation;
    var live := w.live.value;
    var a := AttemptOf(c, w.js, live, requestId, commitId, f.readable, op);
    var h := Replay(c.shelf.session, c.shelf.base, w.js).value;
    if a.Broken? {
      BreaksOnlyEvaluating(c, w.js, h, live, requestId, commitId, f.readable, op);
    }
    if a.Proposed? {
      CommitAppends(c.shelf, w.js, a.record, f.fault);
      ReplaySnoc(c, w.js, h, a.record);
      if SaneEvaluation(live, op) {
        ProposalsAreSound(c, w.js, h, live, requestId, commitId, f.readable, op);
      } else {
        StrayProposalsStop(c, w.js, h, live, requestId, commitId, f.readable, op);
      }
    }
  }

  lemma StrayProposalsStop(
    c: Context, js: seq<Record>, h: HistoryState, live: Live, requestId: Id, commitId: Id, readable: bool, op: Op)
    requires Ready(c, js, h, live) && !SaneEvaluation(live, op)
    requires AttemptOf(c, js, live, requestId, commitId, readable, op).Proposed?
    ensures AttemptOf(c, js, live, requestId, commitId, readable, op).next.None?
  {
    CalculationIsAttempt(c, js, live, requestId, commitId, readable, op);
    FailedCalculationOnlyPoisons(c, js, h, live, requestId, commitId, readable, op.timeout, op.evaluation);
  }
}
