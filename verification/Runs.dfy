/**
  Whole runs: any sequence of requests, crashes and recoveries against any storage behaviour.
 */
module Runs {
  import opened Wrappers
  import opened Documents
  import opened Writes
  import opened Preparation
  import opened History
  import opened Ancestry
  import opened Journals
  import opened Protocol
  import opened Soundness

  datatype World = World(js: seq<Record>, live: Option<Live>)

  datatype Call =
    | Ask(requestId: Id, commitId: Id, op: Op, faults: Faults)
    | Crash
    | Recover(restartId: Id, commitId: Id, epoch: string, faults: Faults)

  // ---- recovery ----

  /** What recovery rebuilds from the journal alone, before it journals its restart boundary. */
  function Rebuilt(c: Context, js: seq<Record>, epoch: string): Option<Live> {
    var h :- Replay(c.shelf.session, c.shelf.base, js);
    var doc :- DocAt(js, c.shelf.base, h.head);
    if !Rebuildable(js, c.shelf.base) then None
    else Some(Live(
      match h.revision
        case None => Book(doc, Revision(epoch, 0, 0), NotEvaluated)
        case Some(at) => Book(doc, at.Noted(), Dirty),
      StagedBy(js), h.generation))
  }

  function RestartRecord(c: Context, h: HistoryState, live: Live, restartId: Id, commitId: Id): Record {
    BaseRecord(
      c, h, live, restartId, commitId, RestartPrint(h.tip.GetOr(""), live.book.revision), Restart,
      NoEffects.(restart := true))
  }

  function Recovered(c: Context, js: seq<Record>, call: Call): World
    requires call.Recover?
  {
    var h := Replay(c.shelf.session, c.shelf.base, js);
    var live := Rebuilt(c, js, call.epoch);
    if !call.faults.readable || live.None? then World(js, None)
    else if js == [] then World(js, live)
    else
      var (js', live', _) := Settle(
        c, js, live.value,
        Proposed(RestartRecord(c, h.value, live.value, call.restartId, call.commitId), live,
          At(live.value.book.revision)), call.faults);
      // A session whose restart boundary was not stored is not handed out.
      World(js', if js' == js then None else live')
  }

  // ---- steps and runs ----

  function Step(c: Context, w: World, call: Call): (World, Result<Reply>) {
    match call
    case Crash => (World(w.js, None), Err)
    case Recover(_, _, _, _) => (Recovered(c, w.js, call), Err)
    case Ask(requestId, commitId, op, faults) =>
      if w.live.None? then (w, Err)
      else
        var (js', live', reply) := Settle(
          c, w.js, w.live.value, AttemptOf(c, w.js, w.live.value, requestId, commitId, faults.readable, op), faults);
        (World(js', live'), reply)
  }

  /** A call is well formed when what it says preparation computed is what preparation computes. */
  ghost predicate WellFormed(c: Context, w: World, call: Call) {
    match call
    case Ask(_, _, op, _) => w.live.Some? ==> WellPrepared(c, w.live.value, op)
    case Recover(_, _, epoch, _) => epoch != ""
    case Crash => true
  }

  ghost predicate IsRun(c: Context, w: World, calls: seq<Call>)
    decreases |calls|
  {
    calls == [] || (WellFormed(c, w, calls[0]) && IsRun(c, Step(c, w, calls[0]).0, calls[1..]))
  }

  function RunTo(c: Context, w: World, calls: seq<Call>): World
    decreases |calls|
  {
    if calls == [] then w else RunTo(c, Step(c, w, calls[0]).0, calls[1..])
  }

  ghost predicate Good(c: Context, w: World) {
    Inv(c, w.js, w.live)
  }

  /** A session opened on the base, before anything is journalled. */
  function Opened(c: Context, epoch: string): World {
    World([], Some(Live(Book(c.shelf.base, Revision(epoch, 0, 0), NotEvaluated), map[], 0)))
  }

  lemma OpenedIsGood(c: Context, epoch: string)
    requires epoch != ""
    ensures Good(c, Opened(c, epoch))
  {
  }

  // ---- one request ----

  /** What else, beyond an unused identity, admission asks of a request. */
  predicate Acceptable(h: HistoryState, live: Live, op: Op) {
    match op
    case WriteOn(request, changeId, _) => request.mode.Stage? ==> changeId !in live.staged
    case CheckoutAt(target) => target in h.parents
    case NewBranch(_, from, _) => from.Some? && from.value != "base" ==> from.value in h.parents
    case _ => true
  }

  predicate SaneEvaluation(live: Live, op: Op) {
    op.Recalculate? && op.evaluation.Some? ==> OnFormulas(live.book.doc, op.evaluation.value)
  }

  /**
    No false failure: a request that gets as far as proposing a record is admitted exactly when its
    commit identity is unused and what it names is acceptable, and then its publication succeeds and
    leaves the session in step with the journal.
   */
  lemma ProposalsAreSound(
    c: Context, js: seq<Record>, h: HistoryState, live: Live, requestId: Id, commitId: Id, readable: bool, op: Op)
    requires Ready(c, js, h, live) && WellPrepared(c, live, op) && SaneEvaluation(live, op)
    requires AttemptOf(c, js, live, requestId, commitId, readable, op).Proposed?
    ensures Sound(c, js, h, AttemptOf(c, js, live, requestId, commitId, readable, op), Acceptable(h, live, op))
  {
    hide UndoAttempt, RedoAttempt, CheckoutAttempt, CreateBranchAttempt, SwitchBranchAttempt, SaveCheckpointAttempt;
    hide RestoreCheckpointAttempt, DeleteCheckpointAttempt, RevokeAttempt, RecalculateAttempt, DiscardAttempt;
    hide WriteAttempt, ApplyStagedAttempt, PreparationOf, Sound;
    RequestIsUnseen(c, js, h, requestId);
    match op
    case WriteOn(request, changeId, prepared) =>
      WriteOnIsSound(c, js, h, live, requestId, commitId, readable, request, changeId, prepared);
    case ApplyStaged(change, expected, prepared) =>
      ApplyStagedIsSound(c, js, h, live, requestId, commitId, readable, change, expected, prepared);
    case DiscardStaged(change) => DiscardIsSound(c, js, h, live, requestId, commitId, readable, change);
    case UndoOnce => UndoIsSound(c, js, h, live, requestId, commitId, readable);
    case RedoOnce => RedoIsSound(c, js, h, live, requestId, commitId, readable);
    case CheckoutAt(target) => CheckoutIsSound(c, js, h, live, requestId, commitId, readable, target);
    case NewBranch(name, from, title) =>
      NewBranchIsSound(c, js, h, live, requestId, commitId, readable, name, from, title);
    case ToBranch(name) => ToBranchIsSound(c, js, h, live, requestId, commitId, readable, name);
    case SaveCheckpoint(title) => SaveIsSound(c, js, h, live, requestId, commitId, readable, title);
    case RestoreCheckpoint(id) => RestoreIsSound(c, js, h, live, requestId, commitId, readable, id);
    case DeleteCheckpoint(id) => DeleteIsSound(c, js, h, live, requestId, commitId, readable, id);
    case RevokeCalculation => RevokeIsSound(c, js, h, live, requestId, commitId, readable);
    case Recalculate(timeout, evaluation) =>
      RecalculateIsSound(c, js, h, live, requestId, commitId, readable, timeout, evaluation);
  }

  // ---- what the storage can do to a proposal ----

  /** Either nothing was appended, or exactly the proposed record was and replay accepts it. */
  lemma SettleProposal(c: Context, js: seq<Record>, live: Live, a: Attempt, f: Faults)
    requires a.Proposed? && FirstWith(js, a.record.requestId).None?
    ensures
      var (js', live', reply) := Settle(c, js, live, a, f);
      || (js' == js && reply.Err? && (live' == Some(live) || live' == None))
      || (js' == js + [a.record] && Replay(c.shelf.session, c.shelf.base, js').Some? && reply.Err? && live' == None)
      || (js' == js + [a.record] && Replay(c.shelf.session, c.shelf.base, js').Some? && live' == a.next && a.next.Some?
           && reply == Ok(a.reply))
  {
    hide Replay, Bytes;
  }

  lemma FailedCalculationOnlyPoisons(
    c: Context, js: seq<Record>, h: HistoryState, live: Live, requestId: Id, commitId: Id, readable: bool,
    timeout: Option<nat>, evaluation: Option<map<Addr, string>>)
    requires Ready(c, js, h, live)
    requires evaluation.Some? && !OnFormulas(live.book.doc, evaluation.value)
    requires RecalculateAttempt(c, js, live, requestId, commitId, readable, timeout, evaluation).Proposed?
    ensures
      var a := RecalculateAttempt(c, js, live, requestId, commitId, readable, timeout, evaluation);
      a.next.None? && Rebuildable(js + [a.record], c.shelf.base)
  {
    RebuildableExtends(
      js, c.shelf.base, RecalculateAttempt(c, js, live, requestId, commitId, readable, timeout, evaluation).record);
  }

  /** An admitted proposal of a good world leads to a good world, whatever the storage answers. */
  lemma AskKeepsGood(c: Context, w: World, requestId: Id, commitId: Id, op: Op, f: Faults)
    requires Good(c, w) && w.live.Some? && WellPrepared(c, w.live.value, op)
    ensures Good(c, Step(c, w, Ask(requestId, commitId, op, f)).0)
  {
    hide AttemptOf, WellPrepared, PreparationOf, InSync, Rebuildable, Replay;
    var live := w.live.value;
    var a := AttemptOf(c, w.js, live, requestId, commitId, f.readable, op);
    var h := Replay(c.shelf.session, c.shelf.base, w.js).value;
    if a.Proposed? {
      SettleProposal(c, w.js, live, a, f);
      ReplaySnoc(c, w.js, h, a.record);
      if SaneEvaluation(live, op) {
        ProposalsAreSound(c, w.js, h, live, requestId, commitId, f.readable, op);
      } else {
        CalculationIsAttempt(c, w.js, live, requestId, commitId, f.readable, op);
        FailedCalculationOnlyPoisons(c, w.js, h, live, requestId, commitId, f.readable, op.timeout, op.evaluation);
      }
    }
  }

  lemma CalculationIsAttempt(
    c: Context, js: seq<Record>, live: Live, requestId: Id, commitId: Id, readable: bool, op: Op)
    requires op.Recalculate?
    ensures AttemptOf(c, js, live, requestId, commitId, readable, op)
         == RecalculateAttempt(c, js, live, requestId, commitId, readable, op.timeout, op.evaluation)
  {
  }

  // ---- recovery ----

  /** Recovery never refuses a journal that a run produced, and rebuilds a session in step with it. */
  lemma RebuiltIsInStep(c: Context, js: seq<Record>, epoch: string)
    requires Good(c, World(js, None))
    ensures Rebuilt(c, js, epoch).Some?
    ensures js == [] && epoch != "" ==> InSync(c, js, Rebuilt(c, js, epoch).value)
  {
    HistoryTreeIsSound(c.shelf.session, c.shelf.base, js);
    RebuildableHeads(
      js, c.shelf.base, Replay(c.shelf.session, c.shelf.base, js).value,
      Replay(c.shelf.session, c.shelf.base, js).value.head);
    EmptyOrDated(c.shelf.session, c.shelf.base, js);
  }

  lemma RestartIsSound(
    c: Context, js: seq<Record>, h: HistoryState, live: Live, restartId: Id, commitId: Id, epoch: string)
    requires Good(c, World(js, None)) && js != []
    requires Replay(c.shelf.session, c.shelf.base, js) == Some(h)
    requires Rebuilt(c, js, epoch) == Some(live)
    requires Admit(h, RestartRecord(c, h, live, restartId, commitId)).Some?
    ensures
      var js' := js + [RestartRecord(c, h, live, restartId, commitId)];
      InSync(c, js', live) && Rebuildable(js', c.shelf.base)
  {
    var r := RestartRecord(c, h, live, restartId, commitId);
    LastRecordStands(c.shelf.session, c.shelf.base, js);
    assert (js + [r])[..|js|] == js;
    ReplaySnoc(c, js, h, r);
    LastRecordStands(c.shelf.session, c.shelf.base, js + [r]);
    RebuildableExtends(js, c.shelf.base, r);
  }

  lemma RecoverKeepsGood(c: Context, w: World, call: Call)
    requires Good(c, w) && call.Recover? && call.epoch != ""
    ensures Good(c, Recovered(c, w.js, call))
  {
    hide InSync, Rebuildable, Replay, Rebuilt;
    RebuiltIsInStep(c, w.js, call.epoch);
    var h, live := Replay(c.shelf.session, c.shelf.base, w.js).value, Rebuilt(c, w.js, call.epoch).value;
    if w.js != [] {
      var r := RestartRecord(c, h, live, call.restartId, call.commitId);
      CommitAppends(c.shelf, w.js, r, call.faults.fault);
      ReplaySnoc(c, w.js, h, r);
      if Admit(h, r).Some? {
        RestartIsSound(c, w.js, h, live, call.restartId, call.commitId, call.epoch);
      }
    }
  }

  // ---- the invariant over runs ----

  /** One step of any kind keeps session and journal in step. */
  lemma StepKeepsGood(c: Context, w: World, call: Call)
    requires Good(c, w) && WellFormed(c, w, call)
    ensures Good(c, Step(c, w, call).0)
  {
    match call
    case Crash =>
    case Recover(_, _, _, _) => RecoverKeepsGood(c, w, call);
    case Ask(requestId, commitId, op, faults) =>
      if w.live.Some? {
        AskKeepsGood(c, w, requestId, commitId, op, faults);
      }
  }

  /** Every world any run reaches is good, whatever fails on the way. */
  lemma {:induction false} RunsStayGood(c: Context, w: World, calls: seq<Call>)
    requires Good(c, w) && IsRun(c, w, calls)
    ensures Good(c, RunTo(c, w, calls))
    decreases |calls|
  {
    if calls != [] {
      StepKeepsGood(c, w, calls[0]);
      RunsStayGood(c, Step(c, w, calls[0]).0, calls[1..]);
    }
  }
}
