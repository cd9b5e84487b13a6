/**
  Revisions as approvals: within a lineage a revision names one document, so a staged bundle accepted
  by its base revision publishes the very candidate that was shown when it was staged.
 */
module Approvals {
  import opened Wrappers
  import opened Documents
  import opened Writes
  import opened Preparation
  import opened History
  import opened Ancestry
  import opened Journals
  import opened Protocol
  import opened Soundness
  import opened Runs
  import opened Guarantees

  /**
    Seen from a moment with this revision and document, the world has either moved on for good, or
    still has the revision and, if usable, the document.
   */
  ghost predicate Since(at: Revision, doc: Doc, w: World) {
    if w.js == [] then
      w.live.Some? ==>
        Diverged(at, w.live.value.book.revision) || (w.live.value.book.revision == at && w.live.value.book.doc == doc)
    else
      var last := w.js[|w.js| - 1].revision;
      Diverged(at, last) || (last == at && (w.live.Some? ==> w.live.value.book.doc == doc))
  }

  predicate Diverged(at: Revision, now: Revision) {
    now.epoch != at.epoch || now.state > at.state
  }

  predicate KeepsEpoch(call: Call, epoch: string) {
    call.Recover? ==> call.epoch != epoch
  }

  predicate FreshEpochs(calls: seq<Call>, epoch: string) {
    forall i | 0 <= i < |calls| :: KeepsEpoch(calls[i], epoch)
  }

  lemma AppendedRevision(c: Context, w: World, requestId: Id, commitId: Id, op: Op, f: Faults)
    requires Good(c, w) && w.live.Some? && WellPrepared(c, w.live.value, op)
    ensures
      var a := AttemptOf(c, w.js, w.live.value, requestId, commitId, f.readable, op);
      var w' := Step(c, w, Ask(requestId, commitId, op, f)).0;
      var was := w.live.value.book;
      || (w'.js == w.js && (w'.live == w.live || w'.live.None?))
      || (a.Proposed? && w'.js == w.js + [a.record]
          && a.record.revision.epoch == was.revision.epoch
          && (a.record.revision.state > was.revision.state
              || (a.record.revision == was.revision && (w'.live.Some? ==> w'.live.value.book == was))))
  {
    hide AttemptOf, WellPrepared, InSync, Rebuildable, Replay;
    var a := AttemptOf(c, w.js, w.live.value, requestId, commitId, f.readable, op);
    if a.Proposed? {
      SettleProposal(c, w.js, w.live.value, a, f);
      var h := Replay(c.shelf.session, c.shelf.base, w.js).value;
      ReplaySnoc(c, w.js, h, a.record);
      if SaneEvaluation(w.live.value, op) {
        ProposalsAreSound(c, w.js, h, w.live.value, requestId, commitId, f.readable, op);
      } else {
        CalculationIsAttempt(c, w.js, w.live.value, requestId, commitId, f.readable, op);
        CalculationMoves(c, w.js, w.live.value, requestId, commitId, f.readable, op.timeout, op.evaluation);
      }
    }
  }

  lemma CalculationMoves(
    c: Context, js: seq<Record>, live: Live, requestId: Id, commitId: Id, readable: bool,
    timeout: Option<nat>, evaluation: Option<map<Addr, string>>)
    requires RecalculateAttempt(c, js, live, requestId, commitId, readable, timeout, evaluation).Proposed?
    ensures RecalculateAttempt(c, js, live, requestId, commitId, readable, timeout, evaluation).record.revision
      == live.book.revision.Noted()
  {
  }

  /** A live session's revision is the last record's once there is one. */
  lemma LiveRevision(c: Context, w: World)
    requires Good(c, w) && w.live.Some?
    ensures w.js != [] ==> w.live.value.book.revision == w.js[|w.js| - 1].revision
  {
    if w.js != [] {
      LiveMatchesLastRecord(c, w);
    }
  }

  lemma AskKeepsSince(c: Context, w: World, call: Call, at: Revision, doc: Doc)
    requires Good(c, w) && WellFormed(c, w, call) && call.Ask? && Since(at, doc, w)
    ensures Since(at, doc, Step(c, w, call).0)
  {
    if w.live.Some? {
      LiveRevision(c, w);
      AppendedRevision(c, w, call.requestId, call.commitId, call.op, call.faults);
      StepKeepsGood(c, w, call);
      hide AttemptOf, InSync, Rebuildable, Replay, Step, WellFormed, Inv;
      var w' := Step(c, w, call).0;
      if w'.js != w.js {
        assert w'.js[|w'.js| - 1].revision.epoch == w.live.value.book.revision.epoch;
      }
    }
  }

  lemma RestartRevision(c: Context, js: seq<Record>, live: Live, epoch: string)
    requires Rebuilt(c, js, epoch) == Some(live)
    ensures js == [] ==> live.book.revision.epoch == epoch
    ensures js != [] ==> live.book.revision == js[|js| - 1].revision.Noted()
  {
    EmptyOrDated(c.shelf.session, c.shelf.base, js);
    if js != [] {
      LastRecordStands(c.shelf.session, c.shelf.base, js);
    }
  }

  /** A restart boundary moves the revision past every earlier one. */
  lemma RecoverKeepsSince(c: Context, w: World, call: Call, at: Revision, doc: Doc)
    requires Good(c, w) && call.Recover? && call.epoch != at.epoch && Since(at, doc, w)
    ensures Since(at, doc, Recovered(c, w.js, call))
  {
    hide InSync, Rebuildable, Rebuilt, Replay;
    RebuiltIsInStep(c, w.js, call.epoch);
    var h, live := Replay(c.shelf.session, c.shelf.base, w.js).value, Rebuilt(c, w.js, call.epoch).value;
    RestartRevision(c, w.js, live, call.epoch);
    CommitAppends(c.shelf, w.js, RestartRecord(c, h, live, call.restartId, call.commitId), call.faults.fault);
  }

  lemma StepKeepsSince(c: Context, w: World, call: Call, at: Revision, doc: Doc)
    requires Good(c, w) && WellFormed(c, w, call) && KeepsEpoch(call, at.epoch) && Since(at, doc, w)
    ensures Since(at, doc, Step(c, w, call).0)
  {
    match call
    case Crash =>
    case Ask(_, _, _, _) => AskKeepsSince(c, w, call, at, doc);
    case Recover(_, _, _, _) => RecoverKeepsSince(c, w, call, at, doc);
  }

  lemma {:induction false} RunKeepsSince(c: Context, w: World, calls: seq<Call>, at: Revision, doc: Doc)
    requires Good(c, w) && IsRun(c, w, calls) && FreshEpochs(calls, at.epoch) && Since(at, doc, w)
    ensures Since(at, doc, RunTo(c, w, calls)) && Good(c, RunTo(c, w, calls))
    decreases |calls|
  {
    if calls != [] {
      assert KeepsEpoch(calls[0], at.epoch);
      StepKeepsSince(c, w, calls[0], at, doc);
      StepKeepsGood(c, w, calls[0]);
      assert forall i | 0 <= i < |calls[1..]| :: calls[1..][i] == calls[i + 1];
      RunKeepsSince(c, Step(c, w, calls[0]).0, calls[1..], at, doc);
    }
  }

  /**
    No ABA over runs: whatever is asked, lost, crashed or recovered in between, if a usable session has
    the revision an earlier one had then it has exactly the document that one had.
   */
  lemma SameRevisionSameDocument(c: Context, w: World, calls: seq<Call>)
    requires Good(c, w) && w.live.Some? && IsRun(c, w, calls)
    requires FreshEpochs(calls, w.live.value.book.revision.epoch)
    requires RunTo(c, w, calls).live.Some?
    requires RunTo(c, w, calls).live.value.book.revision == w.live.value.book.revision
    ensures RunTo(c, w, calls).live.value.book.doc == w.live.value.book.doc
  {
    var at, doc := w.live.value.book.revision, w.live.value.book.doc;
    LiveRevision(c, w);
    RunKeepsSince(c, w, calls, at, doc);
    LiveRevision(c, RunTo(c, w, calls));
  }

  // ---- staged approvals ----

  /** What applying the bundle's operations to a document amounts to. */
  function Candidate(c: Context, doc: Doc, request: Request): Doc {
    Committed(c.engine, doc, request).GetOr(doc)
  }

  lemma PreparedPublishesCandidate(c: Context, live: Live, request: Request, p: Prepared)
    requires request.mode == Apply && PreparedFor(OwnerOf(c, live), request, "", p)
    ensures Publish(live.book.doc, p.publication, true) == Some(Candidate(c, live.book.doc, request))
  {
    if AllCommon(request.ops) {
      var run := RunOps(c.engine, live.book.doc, request.ops, true);
      CellCommit(c.engine, live.book.doc, request);
      CellRunsNeedNoClone(c.engine, live.book.doc, request.ops);
      if p.publication.Cells? {
        EffectsPublish(p.publication.effects, live.book.doc, run.doc);
      }
    }
  }

  /**
    Sound approval: a staged apply that is accepted publishes what its operations make of the document
    at any earlier moment that had the bundle's base revision, the moment of staging among them.
   */
  lemma ApprovalPublishesPreviewedCandidate(
    c: Context, w: World, calls: seq<Call>, requestId: Id, commitId: Id, readable: bool,
    change: Id, expected: Revision, prepared: Option<Prepared>)
    requires Good(c, w) && w.live.Some? && IsRun(c, w, calls)
    requires FreshEpochs(calls, w.live.value.book.revision.epoch)
    requires
      var w2 := RunTo(c, w, calls);
      && w2.live.Some?
      && WellPrepared(c, w2.live.value, ApplyStaged(change, expected, prepared))
      && ApplyStagedAttempt(
           c, w2.js, w2.live.value, requestId, commitId, readable, change, expected, prepared).Proposed?
      && w2.live.value.staged[change].base == w.live.value.book.revision
    ensures
      var w2 := RunTo(c, w, calls);
      var a := ApplyStagedAttempt(c, w2.js, w2.live.value, requestId, commitId, readable, change, expected, prepared);
      var bundle := w2.live.value.staged[change];
      && a.record.effects.prepared.Some?
      && Publish(w2.live.value.book.doc, a.record.effects.prepared.value.publication, true)
         == Some(Candidate(
              c, w.live.value.book.doc, Request(c.shelf.session, expected, Apply, bundle.atomic, bundle.ops, None)))
  {
    var w2 := RunTo(c, w, calls);
    RunsStayGood(c, w, calls);
    var live := w2.live.value;
    ApprovalIsCurrent(c, w2.js, live, requestId, commitId, readable, change, expected, prepared);
    SameRevisionSameDocument(c, w, calls);
    PreparedPublishesCandidate(c, live, ApplyRequest(c, expected, live.staged[change]), prepared.value);
  }

  /** The approval check: bundle, expectation and session must name one revision. */
  lemma ApprovalIsCurrent(
    c: Context, js: seq<Record>, live: Live, requestId: Id, commitId: Id, readable: bool,
    change: Id, expected: Revision, prepared: Option<Prepared>)
    requires WellPrepared(c, live, ApplyStaged(change, expected, prepared))
    requires ApplyStagedAttempt(c, js, live, requestId, commitId, readable, change, expected, prepared).Proposed?
    ensures change in live.staged && live.staged[change].base == live.book.revision == expected
    ensures prepared.Some?
      && PreparedFor(OwnerOf(c, live), ApplyRequest(c, expected, live.staged[change]), "", prepared.value)
    ensures
      var a := ApplyStagedAttempt(c, js, live, requestId, commitId, readable, change, expected, prepared);
      a.record.effects.prepared == Some(prepared.value.(consume := Some(change)))
  {
    hide PreparedFor, PublishPrepared;
  }

  /** A bundle is staged with the revision its owner had, so that moment is one of those. */
  lemma StagedAtOwnRevision(
    c: Context, js: seq<Record>, h: HistoryState, live: Live, requestId: Id, commitId: Id, readable: bool,
    request: Request, changeId: Id, prepared: Option<Prepared>)
    requires Ready(c, js, h, live) && PreparationOf(c, live, request, changeId, prepared) && request.mode == Stage
    requires
      var a := WriteAttempt(c, js, live, requestId, commitId, readable, request, None, prepared);
      a.Proposed? && a.next.Some?
    ensures
      var next := WriteAttempt(c, js, live, requestId, commitId, readable, request, None, prepared).next.value;
      && changeId !in live.staged
      && next.staged == live.staged[changeId := Bundle(live.book.revision, true, request.ops, request.title)]
      && next.book == live.book
  {
    PreparedIsUsable(OwnerOf(c, live), request, changeId, prepared.value);
  }
}
