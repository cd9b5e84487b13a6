/**
  Checkpoints over whole runs: what is saved is what a restore comes back to, until it is deleted, and
  what is deleted stays deleted.
 */
module Checkpoints {
  import opened Wrappers
  import opened Documents
  import opened Writes
  import opened Preparation
  import opened History
  import opened Ancestry
  import opened Journals
  import opened Protocol
  import opened Soundness
  import opened Runs
  import opened Guarantees
  import opened Revisits
  import opened Retries
  import opened Effects

  /** Checkpoints bear the identities of the requests that saved them. */
  lemma {:induction false} CheckpointsAreRequests(session: Id, base: Doc, js: seq<Record>)
    requires Replay(session, base, js).Some?
    ensures Replay(session, base, js).value.checkpoints.Keys <= Replay(session, base, js).value.requestIds
  {
    hide Admit;
    if js != [] {
      var older, r := js[..|js| - 1], js[|js| - 1];
      CheckpointsAreRequests(session, base, older);
      LastAdmitted(session, base, js);
      hide Replay;
      CheckpointsAfter(Replay(session, base, older).value, r, Replay(session, base, js).value);
      RequestsGrow(Replay(session, base, older).value, r, Replay(session, base, js).value);
    }
  }

  /** A step appends at most one record, and only a request to delete a checkpoint appends a deletion of it. */
  lemma StepAppends(c: Context, w: World, call: Call)
    requires Good(c, w) && WellFormed(c, w, call)
    ensures
      var js' := Step(c, w, call).0.js;
      js' == w.js || (
        && |js'| == |w.js| + 1 && js' == w.js + [js'[|w.js|]] && Replay(c.shelf.session, c.shelf.base, js').Some?
        && (js'[|w.js|].transition.CheckpointDelete? ==>
              call.Ask? && call.op == DeleteCheckpoint(js'[|w.js|].effects.checkpoint.GetOr(""))))
  {
    hide AttemptOf, InSync, Rebuildable, Replay, Rebuilt, WellPrepared;
    match call
    case Crash =>
    case Ask(requestId, commitId, op, f) =>
      if w.live.Some? {
        var a := AttemptOf(c, w.js, w.live.value, requestId, commitId, f.readable, op);
        if a.Proposed? {
          SettleProposal(c, w.js, w.live.value, a, f);
          if a.record.transition.CheckpointDelete? {
            OnlyDeletionsDelete(c, w.js, w.live.value, requestId, commitId, f.readable, op);
          }
        }
      }
    case Recover(_, _, _, _) =>
      if w.js != [] && Rebuilt(c, w.js, call.epoch).Some? {
        var h := Replay(c.shelf.session, c.shelf.base, w.js).value;
        CommitAppends(
          c.shelf, w.js, RestartRecord(c, h, Rebuilt(c, w.js, call.epoch).value, call.restartId, call.commitId),
          call.faults.fault);
      }
  }

  lemma OnlyDeletionsDelete(
    c: Context, js: seq<Record>, live: Live, requestId: Id, commitId: Id, readable: bool, op: Op)
    requires WellPrepared(c, live, op) && AttemptOf(c, js, live, requestId, commitId, readable, op).Proposed?
    requires AttemptOf(c, js, live, requestId, commitId, readable, op).record.transition.CheckpointDelete?
    ensures
      var e := AttemptOf(c, js, live, requestId, commitId, readable, op).record.effects;
      op == DeleteCheckpoint(e.checkpoint.GetOr(""))
  {
    hide AttemptOf, WellPrepared;
    RecordsKeepInput(c, js, live, requestId, commitId, readable, op);
  }

  /** A saved checkpoint that nobody asks to delete stays as it is. */
  lemma StepKeepsCheckpoint(c: Context, w: World, call: Call, id: Id)
    requires Good(c, w) && WellFormed(c, w, call) && id in HistoryOf(c, w.js).checkpoints
    requires !(call.Ask? && call.op == DeleteCheckpoint(id))
    ensures
      var w' := Step(c, w, call).0;
      && Good(c, w') && id in HistoryOf(c, w'.js).checkpoints
      && HistoryOf(c, w'.js).checkpoints[id] == HistoryOf(c, w.js).checkpoints[id]
  {
    hide Step, Replay, InSync, Rebuildable, WellFormed;
    var w' := Step(c, w, call).0;
    StepKeepsGood(c, w, call);
    StepAppends(c, w, call);
    if w'.js != w.js {
      var r := w'.js[|w.js|];
      HistoryAfter(c, w.js, r);
      CheckpointsAreRequests(c.shelf.session, c.shelf.base, w.js);
      NewRequest(c, w.js, r);
    }
  }

  lemma NewRequest(c: Context, js: seq<Record>, r: Record)
    requires Replay(c.shelf.session, c.shelf.base, js).Some? && Replay(c.shelf.session, c.shelf.base, js + [r]).Some?
    ensures r.requestId !in HistoryOf(c, js).requestIds
    ensures HistoryOf(c, js + [r]).requestIds == HistoryOf(c, js).requestIds + {r.requestId}
  {
    hide Replay, Admit;
    ReplaySnoc(c, js, HistoryOf(c, js), r);
    RequestsGrow(HistoryOf(c, js), r, HistoryOf(c, js + [r]));
  }

  predicate Spares(calls: seq<Call>, id: Id) {
    forall k | 0 <= k < |calls| :: !(calls[k].Ask? && calls[k].op == DeleteCheckpoint(id))
  }

  lemma {:induction false} RunsKeepCheckpoint(c: Context, w: World, calls: seq<Call>, id: Id)
    requires Good(c, w) && IsRun(c, w, calls) && id in HistoryOf(c, w.js).checkpoints && Spares(calls, id)
    ensures
      var w' := RunTo(c, w, calls);
      && Good(c, w') && id in HistoryOf(c, w'.js).checkpoints
      && HistoryOf(c, w'.js).checkpoints[id] == HistoryOf(c, w.js).checkpoints[id]
    decreases |calls|
  {
    hide Step, WellFormed, Replay, Inv;
    if calls != [] {
      assert !(calls[0].Ask? && calls[0].op == DeleteCheckpoint(id));
      StepKeepsCheckpoint(c, w, calls[0], id);
      assert forall k | 0 <= k < |calls[1..]| :: calls[1..][k] == calls[k + 1];
      RunsKeepCheckpoint(c, Step(c, w, calls[0]).0, calls[1..], id);
    }
  }

  /**
    Over any run that does not ask to delete it, a saved checkpoint keeps head, revision and title of
    the save; and a served restore then comes back to that head and to a document with the logic of
    the one that was live, leaving the branches where the run had them.
   */
  lemma RestoreReturnsToSave(
    c: Context, w1: World, saveId: Id, saveCommit: Id, title: Option<string>, f: Faults, calls: seq<Call>,
    restoreId: Id, restoreCommit: Id, g: Faults)
    requires Served(c, w1, saveId, saveCommit, SaveCheckpoint(title), f)
    requires
      var w2 := After(c, w1, saveId, saveCommit, SaveCheckpoint(title), f);
      && IsRun(c, w2, calls) && Spares(calls, saveId)
      && Served(c, RunTo(c, w2, calls), restoreId, restoreCommit, RestoreCheckpoint(saveId), g)
    ensures
      var w3 := RunTo(c, After(c, w1, saveId, saveCommit, SaveCheckpoint(title), f), calls);
      var w4 := After(c, w3, restoreId, restoreCommit, RestoreCheckpoint(saveId), g);
      && Good(c, w3) && Good(c, w4) && w4.live.Some?
      && var h1, h3, h4 := HistoryOf(c, w1.js), HistoryOf(c, w3.js), HistoryOf(c, w4.js);
      && saveId in h3.checkpoints
      && h3.checkpoints[saveId] == SavedHead(h1.head, w1.live.value.book.revision, title)
      && h4.head == h1.head && h4.branch == h3.branch && h4.branches == h3.branches
      && SameLogic(w1.live.value.book.doc, w4.live.value.book.doc)
  {
    hide Step, Inv, WellFormed, Replay, IsRun, RunTo, WellPrepared;
    var w2 := After(c, w1, saveId, saveCommit, SaveCheckpoint(title), f);
    SavingTakesEffect(c, w1, saveId, saveCommit, title, f);
    RunsKeepCheckpoint(c, w2, calls, saveId);
    var w3 := RunTo(c, w2, calls);
    RestoringTakesEffect(c, w3, restoreId, restoreCommit, saveId, g);
    var w4 := After(c, w3, restoreId, restoreCommit, RestoreCheckpoint(saveId), g);
    StepExtends(c, w1, Ask(saveId, saveCommit, SaveCheckpoint(title), f));
    RunsExtend(c, w2, calls);
    StepExtends(c, w3, Ask(restoreId, restoreCommit, RestoreCheckpoint(saveId), g));
    SameHeadSameDocument(c, w1, w4);
  }

  // ---- deletion is final ----

  lemma StepKeepsGone(c: Context, w: World, call: Call, id: Id)
    requires Good(c, w) && WellFormed(c, w, call)
    requires id in HistoryOf(c, w.js).requestIds && id !in HistoryOf(c, w.js).checkpoints
    ensures
      var w' := Step(c, w, call).0;
      Good(c, w') && id in HistoryOf(c, w'.js).requestIds && id !in HistoryOf(c, w'.js).checkpoints
  {
    hide Step, Replay, InSync, Rebuildable, WellFormed;
    var w' := Step(c, w, call).0;
    StepKeepsGood(c, w, call);
    StepAppends(c, w, call);
    if w'.js != w.js {
      var r := w'.js[|w.js|];
      HistoryAfter(c, w.js, r);
      NewRequest(c, w.js, r);
    }
  }

  lemma {:induction false} RunsKeepGone(c: Context, w: World, calls: seq<Call>, id: Id)
    requires Good(c, w) && IsRun(c, w, calls)
    requires id in HistoryOf(c, w.js).requestIds && id !in HistoryOf(c, w.js).checkpoints
    ensures Good(c, RunTo(c, w, calls)) && id !in HistoryOf(c, RunTo(c, w, calls).js).checkpoints
    decreases |calls|
  {
    hide Step, WellFormed, Replay, Inv;
    if calls != [] {
      StepKeepsGone(c, w, calls[0], id);
      RunsKeepGone(c, Step(c, w, calls[0]).0, calls[1..], id);
    }
  }

  /** No run brings a deleted checkpoint back. */
  lemma DeletedStaysDeleted(c: Context, w: World, requestId: Id, commitId: Id, id: Id, f: Faults, calls: seq<Call>)
    requires Served(c, w, requestId, commitId, DeleteCheckpoint(id), f)
    requires IsRun(c, After(c, w, requestId, commitId, DeleteCheckpoint(id), f), calls)
    ensures
      var w' := RunTo(c, After(c, w, requestId, commitId, DeleteCheckpoint(id), f), calls);
      Good(c, w') && id !in HistoryOf(c, w'.js).checkpoints
  {
    hide Step, Replay, InSync, Rebuildable, WellFormed, IsRun, RunTo, WellPrepared;
    var w1 := After(c, w, requestId, commitId, DeleteCheckpoint(id), f);
    DeletingTakesEffect(c, w, requestId, commitId, id, f);
    PlainAskIsWellFormed(c, w, requestId, commitId, DeleteCheckpoint(id), f);
    CheckpointsAreRequests(c.shelf.session, c.shelf.base, w.js);
    StepAppends(c, w, Ask(requestId, commitId, DeleteCheckpoint(id), f));
    if w1.js != w.js {
      NewRequest(c, w.js, w1.js[|w.js|]);
    }
    RunsKeepGone(c, w1, calls, id);
  }
}
