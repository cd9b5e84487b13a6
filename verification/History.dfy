/**
  The append-only stream of resident commits and the history state its replay yields. Stream order
  is one thing and document ancestry another: a record's stream parent is the record before it,
  its history parent is the document commit it was made from.
 */
module History {
  import opened Wrappers
  import opened Documents
  import opened Writes
  import opened Preparation

  datatype Transition =
    | Mutation | StageApply | CatalogStage | CatalogDiscard
    | CalculationPublish | CalculationInvalidate
    | Undo | Redo | Checkout | BranchCreate | BranchSwitch
    | Checkpoint | CheckpointDelete | Receipt | Restart

  /** Request fingerprints; the hash over the listed fields is taken to be injective. */
  datatype Print =
    | WritePrint(base: Doc, consume: Option<Id>, request: Request)
    | DiscardPrint(change: Id, at: Revision)
    | ControlPrint(
      base: Doc, transition: Transition, effects: Effects, head: Option<Id>, branch: Id, branches: map<Id, Option<Id>>)
    | CalculationPrint(base: Doc, at: Revision, timeout: Option<nat>)
    | RestartPrint(tip: Id, at: Revision)
    | ImportPrint(source: string)

  datatype Proof = Proof(timeout: Option<nat>, revision: Revision, complete: bool)

  datatype CanonicalResponse = CanonicalResponse(session: Id, revision: Revision, operation: string, data: string)

  datatype Outcome = Outcome(input: string, core: Print, response: CanonicalResponse)

  /** The typed entries of a record's effect list; None or false where the entry is absent. */
  datatype Effects = Effects(
    prepared: Option<Prepared>, target: Option<Option<Id>>, branchName: Option<Id>,
    branchTarget: Option<Option<Id>>, requested: Option<Option<Id>>, title: Option<string>,
    discard: Option<Id>, checkpoint: Option<Id>, receiptOf: Option<Transition>,
    calculation: Option<Proof>, revocation: bool, restart: bool, outcome: Option<Outcome>)

  const NoEffects := Effects(None, None, None, None, None, None, None, None, None, None, false, false, None)

  datatype Record = Record(
    session: Id, commitId: Id, parent: Option<Id>, historyParent: Option<Id>, base: Doc,
    requestId: Id, fingerprint: Print, transition: Transition, effects: Effects,
    head: Option<Id>, branch: Id, branches: map<Id, Option<Id>>, generation: nat, revision: Revision)

  datatype SavedHead = SavedHead(head: Option<Id>, revision: Revision, title: Option<string>)

  datatype HistoryState = HistoryState(
    session: Id, base: Doc, tip: Option<Id>, head: Option<Id>, branch: Id, branches: map<Id, Option<Id>>,
    generation: nat, revision: Option<Revision>, checkpoints: map<Id, SavedHead>,
    parents: map<Id, Option<Id>>, catalog: set<Id>,
    commitIds: set<Id>, requestIds: set<Id>, visible: set<(Revision, nat)>)

  const MAIN: Id := "main"

  function Empty(session: Id, base: Doc): HistoryState {
    HistoryState(session, base, None, None, MAIN, map[MAIN := None], 0, None, map[], map[], {}, {}, {}, {})
  }

  predicate Publishes(r: Record) {
    r.effects.prepared.Some? && !r.effects.prepared.value.publication.NoPublication?
  }

  predicate MovesHistory(t: Transition) {
    t.Undo? || t.Redo? || t.Checkout?
  }

  predicate CarriesDocument(t: Transition) {
    t.Mutation? || t.StageApply?
  }

  // ---- walks over document ancestry ----

  function RedoWalk(parents: map<Id, Option<Id>>, head: Option<Id>, cursor: Id, seen: set<Id>): Result<Option<Id>>
    decreases parents.Keys - seen
  {
    if cursor in seen || cursor !in parents then Err
    else if parents[cursor] == head then Ok(Some(cursor))
    else if parents[cursor].None? then Ok(None)
    else RedoWalk(parents, head, parents[cursor].value, seen + {cursor})
  }

  /** The child of head on the path down to the current branch's tip, if head is on that path. */
  function RedoTarget(h: HistoryState): Result<Option<Id>> {
    if h.branch !in h.branches || h.branches[h.branch].None? then Ok(None)
    else RedoWalk(h.parents, h.head, h.branches[h.branch].value, {})
  }

  method FindRedoTarget(h: HistoryState) returns (r: Result<Option<Id>>)
    ensures r == RedoTarget(h)
  {
    if h.branch !in h.branches || h.branches[h.branch].None? {
      return Ok(None);
    }
    var cursor, seen := h.branches[h.branch].value, {};
    while true
      invariant RedoWalk(h.parents, h.head, cursor, seen) == RedoTarget(h)
      decreases h.parents.Keys - seen
    {
      if cursor in seen || cursor !in h.parents {
        return Err;
      }
      seen := seen + {cursor};
      var parent := h.parents[cursor];
      if parent == h.head {
        return Ok(Some(cursor));
      }
      if parent.None? {
        return Ok(None);
      }
      cursor := parent.value;
    }
  }

  /** Where a path ends; the empty one ends at the base. */
  function Last(ids: seq<Id>): Option<Id> {
    if ids == [] then None else Some(ids[|ids| - 1])
  }

  /** The ancestry of a commit, root first. */
  function Ancestors(parents: map<Id, Option<Id>>, cursor: Option<Id>, seen: set<Id>): Result<seq<Id>>
    decreases parents.Keys - seen
  {
    if cursor.None? then Ok([])
    else if cursor.value in seen || cursor.value !in parents then Err
    else
      var older :- Ancestors(parents, parents[cursor.value], seen + {cursor.value});
      Ok(older + [cursor.value])
  }

  method AncestryOf(parents: map<Id, Option<Id>>, tip: Option<Id>) returns (r: Result<seq<Id>>)
    ensures r == Ancestors(parents, tip, {})
  {
    var found, cursor, seen := [], tip, {};
    assert forall s: seq<Id> :: s + found == s;
    while cursor.Some?
      invariant
        var rest := Ancestors(parents, cursor, seen);
        Ancestors(parents, tip, {}) == if rest.Ok? then Ok(rest.value + found) else Err
      decreases cursor.Some?, parents.Keys - seen
    {
      if cursor.value in seen || cursor.value !in parents {
        return Err;
      }
      seen := seen + {cursor.value};
      assert forall s: seq<Id> :: s + [cursor.value] + found == s + ([cursor.value] + found);
      found := [cursor.value] + found;
      cursor := parents[cursor.value];
    }
    assert [] + found == found;
    return Ok(found);
  }

  // ---- admission of one record ----

  predicate ValidPublication(p: Publication) {
    match p
    case Cells(effects) =>
      && effects != []
      && DistinctTargets(effects)
      && forall i | 0 <= i < |effects| :: InGrid(effects[i].addr)
    case _ => true
  }

  predicate ValidPrepared(r: Record, previous: Option<Revision>) {
    if r.effects.prepared.None? then !CarriesDocument(r.transition) && !r.transition.CatalogStage?
    else
      var p := r.effects.prepared.value;
      && p.base == r.base
      && p.response.after == r.revision
      && (previous.Some? ==> previous.value == p.response.before)
      && ValidPublication(p.publication)
      && (Publishes(r) ==> CarriesDocument(r.transition))
      && (!Publishes(r) ==> !r.transition.Mutation?)
      && (p.staged.Some? <==> r.transition.CatalogStage?)
      && (p.consume.Some? <==> r.transition.StageApply?)
      && (CarriesDocument(r.transition) || r.transition.CatalogStage? || r.transition.Receipt?)
  }

  predicate ReceiptAllowed(h: HistoryState, r: Record) {
    match r.effects.receiptOf
    case None => r.effects.prepared.Some?
    case Some(Undo) => h.head.None?
    case Some(Redo) => RedoTarget(h) == Ok(None)
    case Some(CatalogDiscard) => r.effects.discard.Some? && r.effects.discard.value !in h.catalog
    case Some(CalculationInvalidate) => true
    case Some(_) => false
  }

  function ParentOf(h: HistoryState, id: Option<Id>): Option<Id> {
    if id.Some? && id.value in h.parents then h.parents[id.value] else None
  }

  predicate Known(h: HistoryState, id: Option<Id>) {
    id.Some? ==> id.value in h.parents
  }

  predicate SameOwner(a: HistoryState, b: HistoryState) {
    a.session == b.session && a.base == b.base
  }

  function PublishDocument(h: HistoryState, r: Record): (moved: Option<HistoryState>)
    ensures moved.Some? ==> SameOwner(h, moved.value)
  {
    if !Publishes(r) then if r.historyParent.None? then Some(h) else None
    else if r.historyParent != h.head then None
    else Some(h.(
      parents := h.parents[r.commitId := r.historyParent],
      head := Some(r.commitId),
      branches := h.branches[h.branch := Some(r.commitId)]))
  }

  function Unlist(h: HistoryState, change: Option<Id>): (moved: Option<HistoryState>)
    ensures moved.Some? ==> SameOwner(h, moved.value)
  {
    if change.Some? && change.value in h.catalog
    then Some(h.(catalog := h.catalog - {change.value}, generation := h.generation + 1))
    else None
  }

  function CreateBranch(h: HistoryState, r: Record): (moved: Option<HistoryState>)
    ensures moved.Some? ==> SameOwner(h, moved.value)
  {
    if r.effects.branchName.None? || r.effects.branchName.value in h.branches then None
    else
      var target := if r.effects.branchTarget.None? then h.head else r.effects.branchTarget.value;
      var asked := r.effects.requested;
      if r.effects.branchTarget.Some? && !Known(h, target) then None
      else if asked.Some? && !(
        if asked.value.None? then target == h.head
        else if asked.value.value == "base" then target.None?
        else target == asked.value) then None
      else Some(h.(branches := h.branches[r.effects.branchName.value := target]))
  }

  /** The transition-specific part of replay, one branch per transition. */
  function Advance(h: HistoryState, r: Record): (moved: Option<HistoryState>)
    ensures moved.Some? ==> SameOwner(h, moved.value)
  {
    if r.historyParent.Some? && !CarriesDocument(r.transition) then None
    else if MovesHistory(r.transition) && r.effects.target != Some(r.head) then None
    else
      match r.transition
      case Receipt => if ReceiptAllowed(h, r) then Some(h) else None
      case Mutation => PublishDocument(h, r)
      case StageApply =>
        var published :- PublishDocument(h, r);
        Unlist(published, if r.effects.prepared.Some? then r.effects.prepared.value.consume else None)
      case CatalogStage =>
        if r.effects.prepared.None? || r.effects.prepared.value.staged.None? then None
        else
          var change := r.effects.prepared.value.staged.value.0;
          if change in h.catalog then None
          else Some(h.(catalog := h.catalog + {change}, generation := h.generation + 1))
      case CatalogDiscard => Unlist(h, r.effects.discard)
      case CalculationPublish =>
        var proof :- r.effects.calculation;
        if proof.revision == r.revision && proof.complete then Some(h) else None
      case CalculationInvalidate => if r.effects.revocation then Some(h) else None
      case Checkpoint =>
        Some(h.(
          checkpoints := h.checkpoints[r.requestId := SavedHead(h.head, r.revision, r.effects.title)],
          generation := h.generation + 1))
      case CheckpointDelete =>
        var id :- r.effects.checkpoint;
        if id !in h.checkpoints then None
        else Some(h.(checkpoints := h.checkpoints - {id}, generation := h.generation + 1))
      case Restart => if r.effects.restart then Some(h) else None
      case Undo => if r.head == ParentOf(h, h.head) then Some(h.(head := r.head)) else None
      case Redo =>
        if Known(h, r.head) && ParentOf(h, r.head) == h.head && RedoTarget(h) == Ok(r.head)
        then Some(h.(head := r.head)) else None
      case Checkout => if Known(h, r.head) then Some(h.(head := r.head)) else None
      case BranchCreate => CreateBranch(h, r)
      case BranchSwitch =>
        var name :- r.effects.branchName;
        if name !in h.branches then None else Some(h.(branch := name, head := h.branches[name]))
  }

  predicate CatalogOnly(r: Record) {
    match r.transition
    case CatalogStage => true
    case CatalogDiscard => true
    case Checkpoint => true
    case CheckpointDelete => true
    case Receipt => true
    case StageApply => !Publishes(r)
    case _ => false
  }

  predicate ChangesDocument(r: Record, headBefore: Option<Id>) {
    Publishes(r) || MovesHistory(r.transition) || (r.transition.BranchSwitch? && headBefore != r.head)
  }

  function RevisionAfter(previous: Revision, r: Record, headBefore: Option<Id>): Revision {
    Revision(
      previous.epoch,
      previous.document + (if ChangesDocument(r, headBefore) then 1 else 0),
      previous.state + (if CatalogOnly(r) then 0 else 1))
  }

  function PreviousRevision(h: HistoryState, r: Record): Option<Revision> {
    if h.revision.Some? then h.revision
    else if r.effects.prepared.Some? then Some(r.effects.prepared.value.response.before)
    else None
  }

  predicate OutcomeBound(r: Record) {
    r.effects.outcome.Some? ==>
      var o := r.effects.outcome.value;
      o.core == r.fingerprint && o.response.revision == r.revision && o.response.session == r.session
  }

  predicate Consistent(moved: HistoryState, r: Record) {
    r.head == moved.head && r.branch == moved.branch && r.branches == moved.branches && r.generation == moved.generation
  }

  function Admit(h: HistoryState, r: Record): (next: Option<HistoryState>)
    ensures next.Some? ==> SameOwner(h, next.value)
  {
    if r.session != h.session || r.base != h.base then None
    else if r.commitId == "" || r.commitId in h.commitIds then None
    else if r.requestId == "" || r.requestId in h.requestIds then None
    else if r.parent != h.tip then None
    else if !ValidPrepared(r, h.revision) then None
    else
      var moved :- Advance(h, r);
      var previous := PreviousRevision(h, r);
      if !Consistent(moved, r) || r.revision.epoch == "" then None
      else if previous.Some? && r.revision != RevisionAfter(previous.value, r, h.head) then None
      else if !r.transition.Receipt? && (r.revision, r.generation) in h.visible then None
      else if !OutcomeBound(r) then None
      else Some(moved.(
        commitIds := h.commitIds + {r.commitId},
        requestIds := h.requestIds + {r.requestId},
        visible := if r.transition.Receipt? then h.visible else h.visible + {(r.revision, r.generation)},
        tip := Some(r.commitId),
        revision := Some(r.revision)))
  }

  function Replay(session: Id, base: Doc, js: seq<Record>): (h: Option<HistoryState>)
    ensures h.Some? ==> h.value.session == session && h.value.base == base
  {
    if js == [] then Some(Empty(session, base))
    else
      var h :- Replay(session, base, js[..|js| - 1]);
      Admit(h, js[|js| - 1])
  }

  /** Unfolding replay at either end of its last step. */
  lemma LastAdmitted(session: Id, base: Doc, js: seq<Record>)
    requires Replay(session, base, js).Some? && js != []
    ensures Replay(session, base, js[..|js| - 1]).Some?
    ensures Admit(Replay(session, base, js[..|js| - 1]).value, js[|js| - 1]) == Replay(session, base, js)
  {
    hide Admit;
  }

  lemma ReplayAppends(session: Id, base: Doc, js: seq<Record>, r: Record)
    requires Replay(session, base, js).Some?
    ensures Replay(session, base, js + [r]) == Admit(Replay(session, base, js).value, r)
  {
    hide Admit;
    assert (js + [r])[..|js|] == js;
  }

  lemma {:induction false} ReplayPrefix(session: Id, base: Doc, js: seq<Record>, n: nat)
    requires Replay(session, base, js).Some?
    requires n <= |js|
    ensures Replay(session, base, js[..n]).Some?
  {
    if n < |js| {
      ReplayPrefix(session, base, js[..|js| - 1], n);
      assert js[..|js| - 1][..n] == js[..n];
    } else {
      assert js[..n] == js;
    }
  }

  method ReplayBound(session: Id, base: Doc, js: seq<Record>) returns (r: Option<HistoryState>)
    ensures r == Replay(session, base, js)
  {
    var state := Empty(session, base);
    for i := 0 to |js|
      invariant Replay(session, base, js[..i]) == Some(state)
    {
      assert js[..i + 1][..i] == js[..i];
      var next := Admit(state, js[i]);
      if next.None? {
        if Replay(session, base, js).Some? {
          ReplayPrefix(session, base, js, i + 1);
        }
        return None;
      }
      state := next.value;
    }
    assert js[..|js|] == js;
    return Some(state);
  }
}
