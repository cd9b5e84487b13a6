/**
  What the durable protocol guarantees over whole runs.
 */
module Guarantees {
  import opened Wrappers
  import opened Documents
  import opened Writes
  import opened Preparation
  import opened History
  import opened Ancestry
  import opened Journals
  import opened Protocol
  import opened Soundness
  import opened Runs

  // ---- recovery refines the live session ----

  /** Equal as far as the journal can tell: documents up to cached results, and the whole catalog. */
  predicate Agree(a: Live, b: Live) {
    SameLogic(a.book.doc, b.book.doc) && a.staged == b.staged && a.generation == b.generation
  }

  lemma SyncedSessionsAgree(c: Context, js: seq<Record>, live: Live, epoch: string)
    requires Inv(c, js, Some(live))
    ensures Rebuilt(c, js, epoch).Some? && Agree(live, Rebuilt(c, js, epoch).value)
    ensures js != [] ==> Rebuilt(c, js, epoch).value.book.revision == live.book.revision.Noted()
  {
    EmptyOrDated(c.shelf.session, c.shelf.base, js);
  }

  /** A crash at any point of any run: recovery rebuilds the session that was live. */
  lemma RecoveryRefinesLive(c: Context, w0: World, calls: seq<Call>, epoch: string)
    requires Good(c, w0) && IsRun(c, w0, calls)
    ensures
      var w := RunTo(c, w0, calls);
      && Rebuilt(c, w.js, epoch).Some?
      && (w.live.Some? ==> Agree(w.live.value, Rebuilt(c, w.js, epoch).value))
      && (w.live.Some? && w.js != [] ==>
           Rebuilt(c, w.js, epoch).value.book.revision == w.live.value.book.revision.Noted())
  {
    hide Rebuilt, InSync, Agree;
    RunsStayGood(c, w0, calls);
    var w := RunTo(c, w0, calls);
    RebuiltIsInStep(c, w.js, epoch);
    if w.live.Some? {
      SyncedSessionsAgree(c, w.js, w.live.value, epoch);
    }
  }

  /**
    A request that ends with the session poisoned took effect exactly when its record is in the
    journal: recovery then shows its outcome, and otherwise the state before it.
   */
  lemma InterruptedRequestIsAllOrNothing(
    c: Context, w: World, requestId: Id, commitId: Id, op: Op, f: Faults, epoch: string)
    requires Good(c, w) && w.live.Some? && WellPrepared(c, w.live.value, op) && SaneEvaluation(w.live.value, op)
    ensures
      var a := AttemptOf(c, w.js, w.live.value, requestId, commitId, f.readable, op);
      var w' := Step(c, w, Ask(requestId, commitId, op, f)).0;
      && Rebuilt(c, w'.js, epoch).Some?
      && (w'.js == w.js || (a.Proposed? && a.next.Some? && w'.js == w.js + [a.record]))
      && Agree(if w'.js == w.js then w.live.value else a.next.value, Rebuilt(c, w'.js, epoch).value)
  {
    hide AttemptOf, WellPrepared, InSync, Rebuildable, Rebuilt, Agree, Replay;
    var live := w.live.value;
    var a := AttemptOf(c, w.js, live, requestId, commitId, f.readable, op);
    var h := Replay(c.shelf.session, c.shelf.base, w.js).value;
    SyncedSessionsAgree(c, w.js, live, epoch);
    if a.Proposed? {
      SettleProposal(c, w.js, live, a, f);
      ReplaySnoc(c, w.js, h, a.record);
      ProposalsAreSound(c, w.js, h, live, requestId, commitId, f.readable, op);
      if Admit(h, a.record).Some? {
        SyncedSessionsAgree(c, w.js + [a.record], a.next.value, epoch);
      }
    }
  }

  // ---- fail-stop ----

  /** A usable session stands exactly where the last journal record does. */
  lemma LiveMatchesLastRecord(c: Context, w: World)
    requires Good(c, w) && w.live.Some? && w.js != []
    ensures w.live.value.book.revision == w.js[|w.js| - 1].revision
    ensures w.live.value.generation == w.js[|w.js| - 1].generation
  {
    LastRecordStands(c.shelf.session, c.shelf.base, w.js);
  }

  /**
    An error that leaves the session usable changed neither journal nor session; an answer without a
    record changed nothing either; and a poisoned session answers nothing until it is recovered.
   */
  lemma ErrorsAreFailStop(c: Context, w: World, requestId: Id, commitId: Id, op: Op, f: Faults)
    requires Good(c, w)
    ensures
      var (w', reply) := Step(c, w, Ask(requestId, commitId, op, f));
      && (reply.Err? && w'.live.Some? ==> w' == w)
      && (reply.Ok? ==> w'.live.Some?)
      && (w'.js == w.js && w'.live.Some? ==> w' == w)
      && (w.live.None? ==> w' == w && reply.Err?)
  {
    hide AttemptOf, InSync, Rebuildable, Replay;
    if w.live.Some? {
      var a := AttemptOf(c, w.js, w.live.value, requestId, commitId, f.readable, op);
      if a.Proposed? {
        SettleProposal(c, w.js, w.live.value, a, f);
      }
    }
  }

  /**
    No false failure: with storage that works and has room, an acceptable proposal under an unused
    identity succeeds, and one that is not acceptable fails without harm.
   */
  lemma HealthyStorageDecides(c: Context, w: World, h: HistoryState, requestId: Id, commitId: Id, op: Op, f: Faults)
    requires Good(c, w) && w.live.Some? && WellPrepared(c, w.live.value, op) && SaneEvaluation(w.live.value, op)
    requires Replay(c.shelf.session, c.shelf.base, w.js) == Some(h)
    requires AttemptOf(c, w.js, w.live.value, requestId, commitId, f.readable, op).Proposed?
    requires f.fault.NoFault? && f.answers
    requires commitId != "" && commitId !in h.commitIds
    requires
      var r := AttemptOf(c, w.js, w.live.value, requestId, commitId, f.readable, op).record;
      Bytes(c.shelf, w.js) + |c.shelf.encode(r)| + 1 <= JOURNAL_CAP
    ensures
      var (w', reply) := Step(c, w, Ask(requestId, commitId, op, f));
      && (reply.Ok? <==> Acceptable(h, w.live.value, op))
      && (reply.Err? ==> w' == w)
  {
    hide AttemptOf, WellPrepared, InSync, Rebuildable, Acceptable, Bytes, Replay;
    var a := AttemptOf(c, w.js, w.live.value, requestId, commitId, f.readable, op);
    ProposalsAreSound(c, w.js, h, w.live.value, requestId, commitId, f.readable, op);
    ReplaySnoc(c, w.js, h, a.record);
    SettleProposal(c, w.js, w.live.value, a, f);
  }

  // ---- moves through history are always open ----

  /** A move along the history whose destination exists. */
  predicate MoveExists(h: HistoryState, op: Op) {
    match op
    case UndoOnce => true
    case RedoOnce => true
    case CheckoutAt(target) => target in h.parents
    case ToBranch(name) => name in h.branches
    case RestoreCheckpoint(id) => id in h.checkpoints
    case _ => false
  }

  lemma HeadsRebuild(c: Context, js: seq<Record>, h: HistoryState, live: Live, target: Option<Id>)
    requires Ready(c, js, h, live) && Known(h, target)
    ensures HeadDoc(js, c.shelf.base, target).Some?
  {
    HistoryTreeIsSound(c.shelf.session, c.shelf.base, js);
    HeadDocOfKnown(js, c.shelf.base, h, target);
    RebuildableHeads(js, c.shelf.base, h, target);
  }

  lemma RedoFindsOrNot(c: Context, js: seq<Record>, h: HistoryState, live: Live)
    requires Ready(c, js, h, live)
    ensures RedoTarget(h).Ok? && Known(h, RedoTarget(h).value)
  {
    hide Replay, InSync, Rebuildable, RedoWalk;
    HistoryTreeIsSound(c.shelf.session, c.shelf.base, js);
    if h.branches[h.branch].Some? {
      RedoWalkEnds(js, h, h.head, h.branches[h.branch].value, {});
      if RedoWalk(h.parents, h.head, h.branches[h.branch].value, {}).value.Some? {
        RedoFindsChild(h, h.branches[h.branch].value, {});
      }
    }
  }

  lemma UndoIsOpen(c: Context, js: seq<Record>, h: HistoryState, live: Live, requestId: Id, commitId: Id)
    requires Ready(c, js, h, live) && requestId !in h.requestIds && requestId != ""
    ensures UndoAttempt(c, js, live, requestId, commitId, true).Proposed?
    ensures RedoAttempt(c, js, live, requestId, commitId, true).Proposed?
  {
    hide Enter, Replay, HeadDoc, RedoTarget;
    OpenGate(c, js, h, live, requestId, true);
    HistoryTreeIsSound(c.shelf.session, c.shelf.base, js);
    RedoFindsOrNot(c, js, h, live);
    HeadsRebuild(c, js, h, live, RedoTarget(h).value);
    if h.head.Some? {
      HeadsRebuild(c, js, h, live, h.parents[h.head.value]);
    }
  }

  lemma JumpsAreOpen(c: Context, js: seq<Record>, h: HistoryState, live: Live, requestId: Id, commitId: Id, x: Id)
    requires Ready(c, js, h, live) && requestId !in h.requestIds && requestId != ""
    ensures x in h.parents ==> CheckoutAttempt(c, js, live, requestId, commitId, true, x).Proposed?
    ensures x in h.branches ==> SwitchBranchAttempt(c, js, live, requestId, commitId, true, x).Proposed?
    ensures x in h.checkpoints ==> RestoreCheckpointAttempt(c, js, live, requestId, commitId, true, x).Proposed?
  {
    hide Enter, Replay, HeadDoc;
    OpenGate(c, js, h, live, requestId, true);
    HistoryTreeIsSound(c.shelf.session, c.shelf.base, js);
    if x in h.parents {
      HeadsRebuild(c, js, h, live, Some(x));
    }
    if x in h.branches {
      HeadsRebuild(c, js, h, live, h.branches[x]);
    }
    if x in h.checkpoints {
      HeadsRebuild(c, js, h, live, h.checkpoints[x].head);
    }
  }

  /** At every point of every run, with healthy storage and new identities, any existing move is served. */
  lemma HistoryMovesAreServed(c: Context, w: World, h: HistoryState, requestId: Id, commitId: Id, op: Op, f: Faults)
    requires Good(c, w) && w.live.Some? && Replay(c.shelf.session, c.shelf.base, w.js) == Some(h)
    requires MoveExists(h, op) && f == Faults(true, NoFault, true)
    requires requestId != "" && requestId !in h.requestIds && commitId != "" && commitId !in h.commitIds
    requires
      var a := AttemptOf(c, w.js, w.live.value, requestId, commitId, true, op);
      a.Proposed? ==> Bytes(c.shelf, w.js) + |c.shelf.encode(a.record)| + 1 <= JOURNAL_CAP
    ensures Step(c, w, Ask(requestId, commitId, op, f)).1.Ok?
  {
    hide Bytes, Replay, UndoAttempt, RedoAttempt, CheckoutAttempt, SwitchBranchAttempt,
      RestoreCheckpointAttempt, Settle;
    UndoIsOpen(c, w.js, h, w.live.value, requestId, commitId);
    match op {
      case CheckoutAt(x) => JumpsAreOpen(c, w.js, h, w.live.value, requestId, commitId, x);
      case ToBranch(x) => JumpsAreOpen(c, w.js, h, w.live.value, requestId, commitId, x);
      case RestoreCheckpoint(x) => JumpsAreOpen(c, w.js, h, w.live.value, requestId, commitId, x);
      case _ =>
    }
    HealthyStorageDecides(c, w, h, requestId, commitId, op, f);
  }

  // ---- journals only grow ----

  lemma StepExtends(c: Context, w: World, call: Call)
    requires Good(c, w)
    ensures w.js <= Step(c, w, call).0.js
  {
    hide AttemptOf, InSync, Rebuildable, Replay, Rebuilt;
    match call
    case Crash =>
    case Ask(requestId, commitId, op, f) =>
      if w.live.Some? {
        var a := AttemptOf(c, w.js, w.live.value, requestId, commitId, f.readable, op);
        if a.Proposed? {
          SettleProposal(c, w.js, w.live.value, a, f);
        }
      }
    case Recover(_, _, _, _) =>
      if w.js != [] && Rebuilt(c, w.js, call.epoch).Some? {
        var h := Replay(c.shelf.session, c.shelf.base, w.js).value;
        CommitAppends(
          c.shelf, w.js, RestartRecord(c, h, Rebuilt(c, w.js, call.epoch).value, call.restartId, call.commitId),
          call.faults.fault);
      }
  }

  lemma {:induction false} RunsExtend(c: Context, w: World, calls: seq<Call>)
    requires Good(c, w) && IsRun(c, w, calls)
    ensures w.js <= RunTo(c, w, calls).js
    decreases |calls|
  {
    if calls != [] {
      StepExtends(c, w, calls[0]);
      StepKeepsGood(c, w, calls[0]);
      RunsExtend(c, Step(c, w, calls[0]).0, calls[1..]);
    }
  }

  lemma {:induction false} FirstWithStays(js: seq<Record>, js': seq<Record>, requestId: Id)
    requires js <= js' && FirstWith(js, requestId).Some?
    ensures FirstWith(js', requestId) == FirstWith(js, requestId)
  {
    if |js'| > |js| {
      FirstWithStays(js, js'[..|js'| - 1], requestId);
    } else {
      assert js' == js;
    }
  }
}
