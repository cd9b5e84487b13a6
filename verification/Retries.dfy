/**
  Exactly once: a request identity enters the journal at most once, and asking again with the same
  input gives the original answer and changes nothing, however far the session has moved on.
 */
module Retries {
  import opened Wrappers
  import opened Documents
  import opened Writes
  import opened Preparation
  import opened History
  import opened Ancestry
  import opened Journals
  import opened Protocol
  import opened Soundness
  import opened Runs
  import opened Guarantees
  import opened Service

  /** The same request, whatever preparation or the calculation engine made of it. */
  predicate SameInput(a: Op, b: Op) {
    match a
    case WriteOn(request, _, _) => b.WriteOn? && b.request == request
    case ApplyStaged(change, expected, _) => b.ApplyStaged? && b.change == change && b.expected == expected
    case Recalculate(timeout, _) => b.Recalculate? && b.timeout == timeout
    case _ => a == b
  }

  /** A usable session, in step with a journal that holds the request's record. */
  ghost predicate Holds(c: Context, js: seq<Record>, live: Live, requestId: Id, r: Record) {
    && InSync(c, js, live)
    && FirstWith(js, requestId).Some? && js[FirstWith(js, requestId).value] == r
  }

  lemma HeldGate(c: Context, js: seq<Record>, live: Live, requestId: Id, r: Record)
    requires Holds(c, js, live, requestId, r)
    ensures Enter(c, js, live, requestId, true) == Earlier(r)
  {
  }

  lemma UndoRetries(
    c: Context, js: seq<Record>, live: Live, requestId: Id, commitId: Id, readable: bool,
    js': seq<Record>, live': Live, retryId: Id)
    requires UndoAttempt(c, js, live, requestId, commitId, readable).Proposed?
    requires Holds(c, js', live', requestId, UndoAttempt(c, js, live, requestId, commitId, readable).record)
    ensures UndoAttempt(c, js', live', requestId, retryId, true)
      == Answered(UndoAttempt(c, js, live, requestId, commitId, readable).reply)
  {
    hide Replay, FirstWith, InSync;
    HeldGate(c, js', live', requestId, UndoAttempt(c, js, live, requestId, commitId, readable).record);
  }

  lemma RedoRetries(
    c: Context, js: seq<Record>, live: Live, requestId: Id, commitId: Id, readable: bool,
    js': seq<Record>, live': Live, retryId: Id)
    requires RedoAttempt(c, js, live, requestId, commitId, readable).Proposed?
    requires Holds(c, js', live', requestId, RedoAttempt(c, js, live, requestId, commitId, readable).record)
    ensures RedoAttempt(c, js', live', requestId, retryId, true)
      == Answered(RedoAttempt(c, js, live, requestId, commitId, readable).reply)
  {
    hide Replay, FirstWith, InSync;
    HeldGate(c, js', live', requestId, RedoAttempt(c, js, live, requestId, commitId, readable).record);
  }

  lemma RevokeRetries(
    c: Context, js: seq<Record>, live: Live, requestId: Id, commitId: Id, readable: bool,
    js': seq<Record>, live': Live, retryId: Id)
    requires RevokeAttempt(c, js, live, requestId, commitId, readable).Proposed?
    requires Holds(c, js', live', requestId, RevokeAttempt(c, js, live, requestId, commitId, readable).record)
    ensures RevokeAttempt(c, js', live', requestId, retryId, true)
      == Answered(RevokeAttempt(c, js, live, requestId, commitId, readable).reply)
  {
    hide Replay, FirstWith, InSync;
    HeldGate(c, js', live', requestId, RevokeAttempt(c, js, live, requestId, commitId, readable).record);
  }

  lemma CheckoutRetries(
    c: Context, js: seq<Record>, live: Live, requestId: Id, commitId: Id, readable: bool, target: Id,
    js': seq<Record>, live': Live, retryId: Id)
    ensures
      var a := CheckoutAttempt(c, js, live, requestId, commitId, readable, target);
      a.Proposed? && Holds(c, js', live', requestId, a.record) ==>
        CheckoutAttempt(c, js', live', requestId, retryId, true, target) == Answered(a.reply)
    ensures
      var a := RestoreCheckpointAttempt(c, js, live, requestId, commitId, readable, target);
      a.Proposed? && Holds(c, js', live', requestId, a.record) ==>
        RestoreCheckpointAttempt(c, js', live', requestId, retryId, true, target) == Answered(a.reply)
  {
    hide Replay, FirstWith, InSync;
    var a, b := CheckoutAttempt(c, js, live, requestId, commitId, readable, target),
      RestoreCheckpointAttempt(c, js, live, requestId, commitId, readable, target);
    if a.Proposed? && Holds(c, js', live', requestId, a.record) {
      HeldGate(c, js', live', requestId, a.record);
    }
    if b.Proposed? && Holds(c, js', live', requestId, b.record) {
      HeldGate(c, js', live', requestId, b.record);
    }
  }

  lemma BranchRetries(
    c: Context, js: seq<Record>, live: Live, requestId: Id, commitId: Id, readable: bool,
    name: Id, from: Option<Id>, title: Option<string>, js': seq<Record>, live': Live, retryId: Id)
    ensures
      var a := CreateBranchAttempt(c, js, live, requestId, commitId, readable, name, from, title);
      a.Proposed? && Holds(c, js', live', requestId, a.record) ==>
        CreateBranchAttempt(c, js', live', requestId, retryId, true, name, from, title) == Answered(a.reply)
    ensures
      var a := SwitchBranchAttempt(c, js, live, requestId, commitId, readable, name);
      a.Proposed? && Holds(c, js', live', requestId, a.record) ==>
        SwitchBranchAttempt(c, js', live', requestId, retryId, true, name) == Answered(a.reply)
  {
    hide Replay, FirstWith, InSync;
    var a, b := CreateBranchAttempt(c, js, live, requestId, commitId, readable, name, from, title),
      SwitchBranchAttempt(c, js, live, requestId, commitId, readable, name);
    if a.Proposed? && Holds(c, js', live', requestId, a.record) {
      HeldGate(c, js', live', requestId, a.record);
    }
    if b.Proposed? && Holds(c, js', live', requestId, b.record) {
      HeldGate(c, js', live', requestId, b.record);
    }
  }

  lemma CheckpointRetries(
    c: Context, js: seq<Record>, live: Live, requestId: Id, commitId: Id, readable: bool,
    title: Option<string>, id: Id, js': seq<Record>, live': Live, retryId: Id)
    ensures
      var a := SaveCheckpointAttempt(c, js, live, requestId, commitId, readable, title);
      a.Proposed? && Holds(c, js', live', requestId, a.record) ==>
        SaveCheckpointAttempt(c, js', live', requestId, retryId, true, title) == Answered(a.reply)
    ensures
      var a := DeleteCheckpointAttempt(c, js, live, requestId, commitId, readable, id);
      a.Proposed? && Holds(c, js', live', requestId, a.record) ==>
        DeleteCheckpointAttempt(c, js', live', requestId, retryId, true, id) == Answered(a.reply)
  {
    hide Replay, FirstWith, InSync;
    var a, b := SaveCheckpointAttempt(c, js, live, requestId, commitId, readable, title),
      DeleteCheckpointAttempt(c, js, live, requestId, commitId, readable, id);
    if a.Proposed? && Holds(c, js', live', requestId, a.record) {
      HeldGate(c, js', live', requestId, a.record);
    }
    if b.Proposed? && Holds(c, js', live', requestId, b.record) {
      HeldGate(c, js', live', requestId, b.record);
    }
  }

  lemma CalculationRetries(
    c: Context, js: seq<Record>, live: Live, requestId: Id, commitId: Id, readable: bool,
    timeout: Option<nat>, evaluation: Option<map<Addr, string>>, change: Id,
    js': seq<Record>, live': Live, retryId: Id, evaluation': Option<map<Addr, string>>)
    ensures
      var a := RecalculateAttempt(c, js, live, requestId, commitId, readable, timeout, evaluation);
      a.Proposed? && Holds(c, js', live', requestId, a.record) ==>
        RecalculateAttempt(c, js', live', requestId, retryId, true, timeout, evaluation') == Answered(a.reply)
    ensures
      var a := DiscardAttempt(c, js, live, requestId, commitId, readable, change);
      a.Proposed? && Holds(c, js', live', requestId, a.record) ==>
        DiscardAttempt(c, js', live', requestId, retryId, true, change) == Answered(a.reply)
  {
    hide Replay, FirstWith, InSync;
    var a, b := RecalculateAttempt(c, js, live, requestId, commitId, readable, timeout, evaluation),
      DiscardAttempt(c, js, live, requestId, commitId, readable, change);
    if a.Proposed? && Holds(c, js', live', requestId, a.record) {
      HeldGate(c, js', live', requestId, a.record);
    }
    if b.Proposed? && Holds(c, js', live', requestId, b.record) {
      HeldGate(c, js', live', requestId, b.record);
    }
  }

  lemma WriteRetries(
    c: Context, js: seq<Record>, live: Live, requestId: Id, commitId: Id, readable: bool,
    request: Request, consume: Option<Id>, prepared: Option<Prepared>,
    js': seq<Record>, live': Live, retryId: Id, prepared': Option<Prepared>)
    requires
      var a := WriteAttempt(c, js, live, requestId, commitId, readable, request, consume, prepared);
      a.Proposed? && Holds(c, js', live', requestId, a.record)
    ensures
      var a := WriteAttempt(c, js, live, requestId, commitId, readable, request, consume, prepared);
      WriteAttempt(c, js', live', requestId, retryId, true, request, consume, prepared') == Answered(a.reply)
  {
    hide PublishPrepared;
    LastRecordStands(c.shelf.session, c.shelf.base, js');
  }

  lemma ApplyRetries(
    c: Context, js: seq<Record>, live: Live, requestId: Id, commitId: Id, readable: bool,
    change: Id, expected: Revision, prepared: Option<Prepared>,
    js': seq<Record>, live': Live, retryId: Id, prepared': Option<Prepared>)
    requires change in live.staged ==>
      PreparationOf(c, live, ApplyRequest(c, expected, live.staged[change]), "", prepared)
    requires
      var a := ApplyStagedAttempt(c, js, live, requestId, commitId, readable, change, expected, prepared);
      a.Proposed? && Holds(c, js', live', requestId, a.record)
    ensures
      var a := ApplyStagedAttempt(c, js, live, requestId, commitId, readable, change, expected, prepared);
      ApplyStagedAttempt(c, js', live', requestId, retryId, true, change, expected, prepared') == Answered(a.reply)
  {
    hide PublishPrepared, Replay, FirstWith, InSync, PreparedFor;
    PreparedIsUsable(OwnerOf(c, live), ApplyRequest(c, expected, live.staged[change]), "", prepared.value);
    HeldGate(
      c, js', live', requestId,
      ApplyStagedAttempt(c, js, live, requestId, commitId, readable, change, expected, prepared).record);
  }

  /** Asked again with the same input, a journalled request answers as it did the first time. */
  lemma RetryAnswersOriginal(
    c: Context, js: seq<Record>, live: Live, requestId: Id, commitId: Id, readable: bool, op: Op,
    js': seq<Record>, live': Live, retryId: Id, op': Op)
    requires WellPrepared(c, live, op) && SameInput(op, op')
    requires
      var a := AttemptOf(c, js, live, requestId, commitId, readable, op);
      a.Proposed? && Holds(c, js', live', requestId, a.record)
    ensures
      AttemptOf(c, js', live', requestId, retryId, true, op')
      == Answered(AttemptOf(c, js, live, requestId, commitId, readable, op).reply)
  {
    hide UndoAttempt, RedoAttempt, CheckoutAttempt, CreateBranchAttempt, SwitchBranchAttempt, SaveCheckpointAttempt;
    hide RestoreCheckpointAttempt, DeleteCheckpointAttempt, RevokeAttempt, RecalculateAttempt, DiscardAttempt;
    hide WriteAttempt, ApplyStagedAttempt, PreparationOf, Holds;
    match op
    case WriteOn(request, _, prepared) =>
      WriteRetries(
        c, js, live, requestId, commitId, readable, request, None, prepared, js', live', retryId, op'.prepared);
    case ApplyStaged(change, expected, prepared) =>
      ApplyRetries(
        c, js, live, requestId, commitId, readable, change, expected, prepared, js', live', retryId, op'.prepared);
    case DiscardStaged(change) =>
      CalculationRetries(c, js, live, requestId, commitId, readable, None, None, change, js', live', retryId, None);
    case Recalculate(timeout, evaluation) =>
      CalculationRetries(
        c, js, live, requestId, commitId, readable, timeout, evaluation, "", js', live', retryId, op'.evaluation);
    case UndoOnce => UndoRetries(c, js, live, requestId, commitId, readable, js', live', retryId);
    case RedoOnce => RedoRetries(c, js, live, requestId, commitId, readable, js', live', retryId);
    case RevokeCalculation => RevokeRetries(c, js, live, requestId, commitId, readable, js', live', retryId);
    case CheckoutAt(target) => CheckoutRetries(c, js, live, requestId, commitId, readable, target, js', live', retryId);
    case RestoreCheckpoint(id) => CheckoutRetries(c, js, live, requestId, commitId, readable, id, js', live', retryId);
    case NewBranch(name, from, title) =>
      BranchRetries(c, js, live, requestId, commitId, readable, name, from, title, js', live', retryId);
    case ToBranch(name) =>
      BranchRetries(c, js, live, requestId, commitId, readable, name, None, None, js', live', retryId);
    case SaveCheckpoint(title) =>
      CheckpointRetries(c, js, live, requestId, commitId, readable, title, "", js', live', retryId);
    case DeleteCheckpoint(id) =>
      CheckpointRetries(c, js, live, requestId, commitId, readable, None, id, js', live', retryId);
  }

  /**
    Exactly once, over any run. If a request's record entered the journal, acknowledged or not, then
    at every later point of the run where a session is usable the record is still there, it is the
    only one under that identity, and asking again with the same input gives its answer and changes
    neither journal nor session.
   */
  lemma RequestsTakeEffectOnce(
    c: Context, w: World, requestId: Id, commitId: Id, op: Op, f: Faults, calls: seq<Call>,
    retryId: Id, op': Op, f': Faults)
    requires Good(c, w) && w.live.Some? && WellPrepared(c, w.live.value, op) && SameInput(op, op')
    requires
      var w1 := Step(c, w, Ask(requestId, commitId, op, f)).0;
      w1.js != w.js && IsRun(c, w1, calls) && RunTo(c, w1, calls).live.Some?
    requires f'.readable
    ensures
      var a := AttemptOf(c, w.js, w.live.value, requestId, commitId, f.readable, op);
      var w2 := RunTo(c, Step(c, w, Ask(requestId, commitId, op, f)).0, calls);
      && a.Proposed?
      && |w.js| < |w2.js| && w2.js[|w.js|] == a.record
      && (forall i | 0 <= i < |w2.js| && w2.js[i].requestId == requestId :: i == |w.js|)
      && Step(c, w2, Ask(requestId, retryId, op', f')) == (w2, Ok(a.reply))
  {
    hide AttemptOf, WellPrepared, InSync, Rebuildable, RunTo, IsRun, SameInput, Replay;
    var a := AttemptOf(c, w.js, w.live.value, requestId, commitId, f.readable, op);
    var w1 := Step(c, w, Ask(requestId, commitId, op, f)).0;
    if a.Proposed? {
      SettleProposal(c, w.js, w.live.value, a, f);
    }
    AskKeepsGood(c, w, requestId, commitId, op, f);
    var w2 := RunTo(c, w1, calls);
    RunsStayGood(c, w1, calls);
    RunsExtend(c, w1, calls);
    assert w1.js[|w.js|] == a.record;
    forall i | 0 <= i < |w2.js| && w2.js[i].requestId == requestId ensures i == |w.js| {
      RequestsAreUnique(c.shelf.session, c.shelf.base, w2.js, i, |w.js|);
    }
    assert w2.js[|w.js|].requestId == requestId;
    RetryAnswersOriginal(
      c, w.js, w.live.value, requestId, commitId, f.readable, op, w2.js, w2.live.value, retryId, op');
  }

  /** A journalled identity never proposes again, whatever it is asked to do. */
  lemma UsedIdentitiesNeverProposeAgain(
    c: Context, js: seq<Record>, live: Live, requestId: Id, commitId: Id, readable: bool, op: Op)
    requires FirstWith(js, requestId).Some?
    ensures !AttemptOf(c, js, live, requestId, commitId, readable, op).Proposed?
  {
    hide AttemptOf;
    assert New(AttemptOf(c, js, live, requestId, commitId, readable, op), c, js, requestId, commitId, readable);
  }

  // ---- another input under a used identity ----

  /** The kind of record an operation other than a write leaves, receipts standing for what they acknowledge. */
  function KindOf(op: Op): Transition
    requires !op.WriteOn? && !op.ApplyStaged?
  {
    match op
    case DiscardStaged(_) => CatalogDiscard
    case UndoOnce => Undo
    case RedoOnce => Redo
    case CheckoutAt(_) => Checkout
    case NewBranch(_, _, _) => BranchCreate
    case ToBranch(_) => BranchSwitch
    case SaveCheckpoint(_) => Checkpoint
    case RestoreCheckpoint(_) => Checkout
    case DeleteCheckpoint(_) => CheckpointDelete
    case RevokeCalculation => CalculationInvalidate
    case Recalculate(_, _) => CalculationPublish
  }

  predicate KeepsArguments(op: Op, e: Effects) {
    match op
    case DiscardStaged(change) => e.discard == Some(change)
    case CheckoutAt(target) => e.target == Some(Some(target)) && e.checkpoint == None
    case NewBranch(name, from, title) =>
      e.branchName == Some(name) && e.requested.GetOr(None) == from && e.title == title
    case ToBranch(name) => e.branchName == Some(name)
    case SaveCheckpoint(title) => e == NoEffects.(title := title)
    case RestoreCheckpoint(id) => e.checkpoint == Some(id)
    case DeleteCheckpoint(id) => e == NoEffects.(checkpoint := Some(id))
    case Recalculate(timeout, _) => e.calculation.Some? && e.calculation.value.timeout == timeout
    case _ => true
  }

  predicate KeepsWrite(r: Record, token: Print) {
    && r.fingerprint == token && r.effects.prepared.Some?
    && r.effects.prepared.value.consume == None && r.effects.receiptOf == None && !r.transition.StageApply?
    && (r.transition.Mutation? || r.transition.CatalogStage? || r.transition.Receipt?)
  }

  predicate KeepsApproval(change: Id, expected: Revision, r: Record) {
    && r.fingerprint.WritePrint? && r.fingerprint.consume == Some(change) && r.transition.StageApply?
    && r.effects.prepared.Some? && r.effects.prepared.value.consume == Some(change)
    && r.effects.prepared.value.response.before == expected
  }

  /** What a record keeps of the input it answers. */
  predicate Keeps(c: Context, op: Op, r: Record) {
    if op.WriteOn? then KeepsWrite(r, WritePrint(c.shelf.base, None, op.request))
    else if op.ApplyStaged? then KeepsApproval(op.change, op.expected, r)
    else
      && !r.fingerprint.WritePrint? && r.effects.prepared.None? && OperationOf(r) == KindOf(op)
      && r.effects.outcome == None && KeepsArguments(op, r.effects)
  }

  lemma WriteKeepsInput(
    c: Context, js: seq<Record>, live: Live, requestId: Id, commitId: Id, readable: bool, op: Op)
    requires WellPrepared(c, live, op) && (op.WriteOn? || op.ApplyStaged?)
    requires AttemptOf(c, js, live, requestId, commitId, readable, op).Proposed?
    ensures Keeps(c, op, AttemptOf(c, js, live, requestId, commitId, readable, op).record)
  {
    hide Enter, Replay, PublishPrepared, FirstWith, PreparedFor;
    if op.WriteOn? {
      PreparedIsUsable(OwnerOf(c, live), op.request, op.changeId, op.prepared.value);
    } else {
      PreparedIsUsable(
        OwnerOf(c, live), ApplyRequest(c, op.expected, live.staged[op.change]), "", op.prepared.value);
    }
  }

  lemma StepsKeepInput(
    c: Context, js: seq<Record>, live: Live, requestId: Id, commitId: Id, readable: bool, op: Op)
    requires op.UndoOnce? || op.RedoOnce?
    requires AttemptOf(c, js, live, requestId, commitId, readable, op).Proposed?
    ensures Keeps(c, op, AttemptOf(c, js, live, requestId, commitId, readable, op).record)
  {
    hide Enter, HeadDoc, RedoTarget, BranchTarget, ControlBook, ControlRevision, Tagged, New, Moves;
  }

  lemma JumpsKeepInput(
    c: Context, js: seq<Record>, live: Live, requestId: Id, commitId: Id, readable: bool, op: Op)
    requires op.CheckoutAt? || op.RestoreCheckpoint?
    requires AttemptOf(c, js, live, requestId, commitId, readable, op).Proposed?
    ensures Keeps(c, op, AttemptOf(c, js, live, requestId, commitId, readable, op).record)
  {
    hide Enter, HeadDoc, RedoTarget, BranchTarget, ControlBook, ControlRevision, Tagged, New, Moves;
  }

  lemma BranchesKeepInput(
    c: Context, js: seq<Record>, live: Live, requestId: Id, commitId: Id, readable: bool, op: Op)
    requires op.NewBranch? || op.ToBranch?
    requires AttemptOf(c, js, live, requestId, commitId, readable, op).Proposed?
    ensures Keeps(c, op, AttemptOf(c, js, live, requestId, commitId, readable, op).record)
  {
    hide Enter, HeadDoc, RedoTarget, BranchTarget, ControlBook, ControlRevision, Tagged, New, Moves;
  }

  lemma NotesKeepInput(
    c: Context, js: seq<Record>, live: Live, requestId: Id, commitId: Id, readable: bool, op: Op)
    requires op.SaveCheckpoint? || op.DeleteCheckpoint? || op.RevokeCalculation?
    requires AttemptOf(c, js, live, requestId, commitId, readable, op).Proposed?
    ensures Keeps(c, op, AttemptOf(c, js, live, requestId, commitId, readable, op).record)
  {
    hide Enter, HeadDoc, RedoTarget, BranchTarget, ControlBook, ControlRevision, Tagged, New, Moves;
  }

  lemma RestKeepsInput(
    c: Context, js: seq<Record>, live: Live, requestId: Id, commitId: Id, readable: bool, op: Op)
    requires op.DiscardStaged? || op.Recalculate?
    requires AttemptOf(c, js, live, requestId, commitId, readable, op).Proposed?
    ensures Keeps(c, op, AttemptOf(c, js, live, requestId, commitId, readable, op).record)
  {
    hide Enter, HeadDoc, RedoTarget, BranchTarget, ControlBook, ControlRevision, Tagged, New, Moves;
  }

  lemma ControlsKeepInput(
    c: Context, js: seq<Record>, live: Live, requestId: Id, commitId: Id, readable: bool, op: Op)
    requires !op.WriteOn? && !op.ApplyStaged?
    requires AttemptOf(c, js, live, requestId, commitId, readable, op).Proposed?
    ensures Keeps(c, op, AttemptOf(c, js, live, requestId, commitId, readable, op).record)
  {
    hide AttemptOf, Keeps;
    match op
    case NewBranch(_, _, _) => BranchesKeepInput(c, js, live, requestId, commitId, readable, op);
    case ToBranch(_) => BranchesKeepInput(c, js, live, requestId, commitId, readable, op);
    case SaveCheckpoint(_) => NotesKeepInput(c, js, live, requestId, commitId, readable, op);
    case DeleteCheckpoint(_) => NotesKeepInput(c, js, live, requestId, commitId, readable, op);
    case RevokeCalculation => NotesKeepInput(c, js, live, requestId, commitId, readable, op);
    case DiscardStaged(_) => RestKeepsInput(c, js, live, requestId, commitId, readable, op);
    case Recalculate(_, _) => RestKeepsInput(c, js, live, requestId, commitId, readable, op);
    case UndoOnce => StepsKeepInput(c, js, live, requestId, commitId, readable, op);
    case RedoOnce => StepsKeepInput(c, js, live, requestId, commitId, readable, op);
    case CheckoutAt(_) => JumpsKeepInput(c, js, live, requestId, commitId, readable, op);
    case RestoreCheckpoint(_) => JumpsKeepInput(c, js, live, requestId, commitId, readable, op);
  }

  lemma RecordsKeepInput(
    c: Context, js: seq<Record>, live: Live, requestId: Id, commitId: Id, readable: bool, op: Op)
    requires WellPrepared(c, live, op)
    requires AttemptOf(c, js, live, requestId, commitId, readable, op).Proposed?
    ensures Keeps(c, op, AttemptOf(c, js, live, requestId, commitId, readable, op).record)
  {
    hide AttemptOf, Keeps, WellPrepared;
    if op.WriteOn? || op.ApplyStaged? {
      WriteKeepsInput(c, js, live, requestId, commitId, readable, op);
    } else {
      ControlsKeepInput(c, js, live, requestId, commitId, readable, op);
    }
  }

  /** An answer under a used identity is an answer to the same input; a restore is also the checkout it made. */
  predicate Answers(op: Op, r: Record, op': Op) {
    SameInput(op, op') || (op.RestoreCheckpoint? && op'.CheckoutAt? && r.effects.target == Some(Some(op'.target)))
  }

  /** What an early return looks at. */
  predicate Recognises(op: Op, r: Record)
    requires !op.WriteOn?
  {
    if op.ApplyStaged? then
      && r.effects.prepared.Some? && OperationOf(r).StageApply?
      && r.effects.prepared.value.consume == Some(op.change) && r.effects.prepared.value.response.before == op.expected
    else
      && OperationOf(r) == KindOf(op)
      && (op.CheckoutAt? ==> r.effects.target == Some(Some(op.target)))
      && (!op.CheckoutAt? ==> KeepsArguments(op, Undressed(r.effects)))
  }

  lemma EarlierIsRecognised(c: Context, js: seq<Record>, live: Live, requestId: Id, retryId: Id, op: Op, r: Record)
    requires !op.WriteOn? && Enter(c, js, live, requestId, true) == Earlier(r)
    requires AttemptOf(c, js, live, requestId, retryId, true, op).Answered?
    ensures Recognises(op, r)
  {
    hide Enter, HeadDoc, RedoTarget, BranchTarget, ControlAttempt, ReceiptAttempt, MoveAttempt, WriteAttempt;
  }

  lemma RecognisedIsSame(c: Context, op: Op, r: Record, op': Op)
    requires Keeps(c, op, r) && !op'.WriteOn? && Recognises(op', r)
    ensures Answers(op, r, op')
  {
  }

  lemma OnlySameInputIsAnswered(
    c: Context, op: Op, r: Record, js: seq<Record>, live: Live, requestId: Id, retryId: Id, op': Op)
    requires Keeps(c, op, r) && Holds(c, js, live, requestId, r)
    requires !op'.WriteOn?
    requires AttemptOf(c, js, live, requestId, retryId, true, op').Answered?
    ensures Answers(op, r, op')
  {
    hide AttemptOf, Enter, Keeps, Answers, Recognises, Holds;
    HeldGate(c, js, live, requestId, r);
    EarlierIsRecognised(c, js, live, requestId, retryId, op', r);
    RecognisedIsSame(c, op, r, op');
  }

  lemma OnlySameWriteIsAnswered(
    c: Context, op: Op, r: Record, js: seq<Record>, live: Live, requestId: Id, retryId: Id, op': Op)
    requires Keeps(c, op, r) && Holds(c, js, live, requestId, r)
    requires op'.WriteOn? && AttemptOf(c, js, live, requestId, retryId, true, op').Answered?
    ensures Answers(op, r, op')
  {
    hide Replay, InSync;
  }

  /**
    No confusion over any run: once a request's record is in the journal, asking under its identity is
    answered only if the input is the same; anything else is an error and changes nothing.
   */
  lemma OtherInputIsRefused(
    c: Context, w: World, requestId: Id, commitId: Id, op: Op, f: Faults, calls: seq<Call>,
    retryId: Id, op': Op, f': Faults)
    requires Good(c, w) && w.live.Some? && WellPrepared(c, w.live.value, op)
    requires
      var w1 := Step(c, w, Ask(requestId, commitId, op, f)).0;
      w1.js != w.js && IsRun(c, w1, calls) && RunTo(c, w1, calls).live.Some?
    requires f'.readable
    requires
      var a := AttemptOf(c, w.js, w.live.value, requestId, commitId, f.readable, op);
      a.Proposed? ==> !Answers(op, a.record, op')
    ensures
      var w2 := RunTo(c, Step(c, w, Ask(requestId, commitId, op, f)).0, calls);
      Step(c, w2, Ask(requestId, retryId, op', f')) == (w2, Err)
  {
    hide AttemptOf, WellPrepared, InSync, Rebuildable, RunTo, IsRun, SameInput, Replay, Answers, Keeps;
    SameAsItself(op);
    RequestsTakeEffectOnce(c, w, requestId, commitId, op, f, calls, "", op, f');
    var a := AttemptOf(c, w.js, w.live.value, requestId, commitId, f.readable, op);
    var w2 := RunTo(c, Step(c, w, Ask(requestId, commitId, op, f)).0, calls);
    AskKeepsGood(c, w, requestId, commitId, op, f);
    RunsStayGood(c, Step(c, w, Ask(requestId, commitId, op, f)).0, calls);
    RecordsKeepInput(c, w.js, w.live.value, requestId, commitId, f.readable, op);
    assert w2.js[|w.js|].requestId == requestId;
    UsedIdentitiesNeverProposeAgain(c, w2.js, w2.live.value, requestId, retryId, true, op');
    NeverBroken(c, w2, requestId, retryId, op');
    if AttemptOf(c, w2.js, w2.live.value, requestId, retryId, true, op').Answered? {
      if op'.WriteOn? {
        OnlySameWriteIsAnswered(c, op, a.record, w2.js, w2.live.value, requestId, retryId, op');
      } else {
        OnlySameInputIsAnswered(c, op, a.record, w2.js, w2.live.value, requestId, retryId, op');
      }
    }
  }

  lemma SameAsItself(op: Op)
    ensures SameInput(op, op)
  {
  }

  lemma NeverBroken(c: Context, w: World, requestId: Id, retryId: Id, op: Op)
    requires Good(c, w) && w.live.Some? && FirstWith(w.js, requestId).Some?
    ensures !AttemptOf(c, w.js, w.live.value, requestId, retryId, true, op).Broken?
  {
    hide AttemptOf, Replay, InSync, Rebuildable;
    var h := Replay(c.shelf.session, c.shelf.base, w.js).value;
    if AttemptOf(c, w.js, w.live.value, requestId, retryId, true, op).Broken? {
      BreaksOnlyEvaluating(c, w.js, h, w.live.value, requestId, retryId, true, op);
      CalculationIsAttempt(c, w.js, w.live.value, requestId, retryId, true, op);
    }
  }
}
