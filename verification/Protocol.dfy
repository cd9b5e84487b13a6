/**
  The durable protocol of one resident owner: for each request, the record it would journal and the
  state it would publish once that record is known to be stored. The storage is an adversary; the
  only thing a request can do with it is try to append one record and ask what became of it.
 */
module Protocol {
  import opened Wrappers
  import opened Documents
  import opened Writes
  import opened Preparation
  import opened History
  import opened Ancestry
  import opened Journals

  datatype Stamp = NotEvaluated | Dirty | Current

  /** The live workbook: document, revision counters and the state of its calculation proof. */
  datatype Book = Book(doc: Doc, revision: Revision, stamp: Stamp) {
    function Replaced(after: Doc, calculation: CalculationEffect): Book {
      Book(after, revision.Edited(), if calculation.Preserve? then stamp else Dirty)
    }

    function Noted(): Book {
      this.(revision := revision.Noted())
    }

    function Revoked(): Book {
      if stamp.Dirty? then this else Book(doc, revision.Noted(), Dirty)
    }
  }

  /** Calculation stores results in formula cells and nowhere else. */
  predicate OnFormulas(d: Doc, results: map<Addr, string>) {
    forall a | a in results :: a in d.cells && d.cells[a].formula.Some?
  }

  function Cached(d: Doc, results: map<Addr, string>): Doc {
    d.(cells := map a | a in d.cells :: if a in results then d.cells[a].(value := results[a]) else d.cells[a])
  }

  lemma ResultsAreNotLogic(d: Doc, results: map<Addr, string>)
    requires OnFormulas(d, results)
    ensures SameLogic(Cached(d, results), d)
  {
    SameLogicCells(Cached(d, results), d);
  }

  /** What a usable session holds; a poisoned one holds nothing that may be relied on. */
  datatype Live = Live(book: Book, staged: map<Id, Bundle>, generation: nat)

  datatype Context = Context(engine: Engine, shelf: Shelf)

  datatype Faults = Faults(readable: bool, fault: Fault, answers: bool)

  datatype Reply =
    | At(revision: Revision)
    | Wrote(response: Response)
    | Discarded(did: bool)
    | Calculated(proof: Proof)

  datatype Attempt =
    | Refused
    | Broken
    | Answered(reply: Reply)
    | Proposed(record: Record, next: Option<Live>, reply: Reply)

  /** Journal first, publish second; an unknown outcome or a failed publication poisons the session. */
  function Settle(
    c: Context, js: seq<Record>, live: Live, a: Attempt, f: Faults): (seq<Record>, Option<Live>, Result<Reply>) {
    match a
    case Refused => (js, Some(live), Err)
    case Broken => (js, None, Err)
    case Answered(reply) => (js, Some(live), Ok(reply))
    case Proposed(r, next, reply) =>
      var (js', durable) := CommitTo(c.shelf, js, r, f.fault);
      if durable.Err? && !f.answers then (js', None, Err)
      else if durable.Err? && js' == js then (js, Some(live), Err)
      else (js', next, if next.Some? then Ok(reply) else Err)
  }

  /** A proposal carries the identities of the call that made it. */
  predicate Tagged(a: Attempt, c: Context, requestId: Id, commitId: Id) {
    a.Proposed? ==>
      && requestId != ""
      && a.record.requestId == requestId && a.record.commitId == commitId
      && a.record.session == c.shelf.session && a.record.base == c.shelf.base
  }

  /** Only a request whose identity the journal does not hold proposes a record. */
  predicate New(a: Attempt, c: Context, js: seq<Record>, requestId: Id, commitId: Id, readable: bool) {
    Tagged(a, c, requestId, commitId) && (a.Proposed? ==> FirstWith(js, requestId).None? && readable)
  }

  /**
    What a proposal publishes has the revision its record claims, and either moves the counters
    or leaves the workbook as it is.
   */
  predicate Moves(a: Attempt, live: Live) {
    a.Proposed? && a.next.Some? ==>
      && a.next.value.book.revision == a.record.revision
      && (a.record.revision == live.book.revision.Edited() || a.record.revision == live.book.revision.Noted()
           || a.next.value.book == live.book)
  }

  // ---- entering a request ----

  predicate Synced(h: HistoryState, live: Live) {
    (h.revision.Some? ==> h.revision.value == live.book.revision) && h.generation == live.generation
  }

  datatype Gate = Shut | Earlier(record: Record) | Open(history: HistoryState)

  /** A request either is refused, or finds its own earlier record, or starts from the replayed history. */
  function Enter(c: Context, js: seq<Record>, live: Live, requestId: Id, readable: bool): Gate {
    if !readable then Shut
    else
      match Replay(c.shelf.session, c.shelf.base, js)
      case None => Shut
      case Some(h) =>
        if !Synced(h, live) then Shut
        else
          match FirstWith(js, requestId)
          case Some(i) => Earlier(js[i])
          case None => Open(h)
  }

  /** What the request asked for; a receipt stands for the operation it acknowledges. */
  function OperationOf(r: Record): Transition {
    if r.transition.Receipt? && r.effects.receiptOf.Some? then r.effects.receiptOf.value else r.transition
  }

  function Undressed(e: Effects): Effects {
    e.(outcome := None)
  }

  // ---- records and what they publish ----

  function BaseRecord(
    c: Context, h: HistoryState, live: Live, requestId: Id, commitId: Id, token: Print, t: Transition,
    e: Effects): Record {
    Record(
      c.shelf.session, commitId, h.tip, None, c.shelf.base, requestId, token, t, e,
      h.head, h.branch, h.branches, live.generation, live.book.revision)
  }

  predicate CountsInCatalog(t: Transition) {
    t.Checkpoint? || t.CheckpointDelete?
  }

  function ControlBook(book: Book, t: Transition, target: Option<Doc>): Book {
    if CountsInCatalog(t) || t.Receipt? then book
    else if target.Some? then book.Replaced(target.value, Invalidate)
    else if t.CalculationInvalidate? then book.Revoked()
    else book.Noted()
  }

  function ControlRevision(book: Book, t: Transition, target: Option<Doc>): Revision {
    if CountsInCatalog(t) || t.Receipt? then book.revision
    else if target.Some? then book.revision.Edited()
    else book.revision.Noted()
  }

  function ControlAttempt(
    c: Context, h: HistoryState, live: Live, requestId: Id, commitId: Id, t: Transition, e: Effects,
    head: Option<Id>, branch: Id, branches: map<Id, Option<Id>>, target: Option<Doc>): (a: Attempt)
    ensures Tagged(a, c, requestId, commitId) && Moves(a, live) && !a.Answered?
  {
    var count := if CountsInCatalog(t) then 1 else 0;
    var revision := ControlRevision(live.book, t, target);
    var book := ControlBook(live.book, t, target);
    if requestId == "" then Refused
    else Proposed(
      BaseRecord(c, h, live, requestId, commitId, ControlPrint(c.shelf.base, t, e, head, branch, branches), t, e).(
        head := head, branch := branch, branches := branches,
        generation := live.generation + count, revision := revision),
      if book.revision == revision then Some(live.(book := book, generation := live.generation + count)) else None,
      At(revision))
  }

  function ReceiptAttempt(
    c: Context, h: HistoryState, live: Live, requestId: Id, commitId: Id, operation: Transition,
    e: Effects): (a: Attempt)
    ensures Tagged(a, c, requestId, commitId) && Moves(a, live) && !a.Answered?
  {
    ControlAttempt(
      c, h, live, requestId, commitId, Receipt, e.(receiptOf := Some(operation)), h.head, h.branch, h.branches, None)
  }

  /**
    The document a materialisation yields. The target test looks only at the kind of transition, so
    a staged apply that published nothing passes it and, having no ancestry, yields the base.
   */
  function HeadDoc(js: seq<Record>, base: Doc, target: Option<Id>): Option<Doc> {
    if target.None? then Some(base)
    else
      var n := Rank(js, target.value);
      if n == 0 || !CarriesDocument(js[n - 1].transition) then None
      else if !Publishes(js[n - 1]) then Some(base)
      else DocAt(js, base, target)
  }

  function MoveAttempt(
    c: Context, js: seq<Record>, h: HistoryState, live: Live, requestId: Id, commitId: Id,
    t: Transition, e: Effects, target: Option<Id>): (a: Attempt)
    ensures Tagged(a, c, requestId, commitId) && Moves(a, live) && !a.Answered?
  {
    match HeadDoc(js, c.shelf.base, target)
    case None => Refused
    case Some(d) =>
      ControlAttempt(
        c, h, live, requestId, commitId, t, e.(target := Some(target)), target, h.branch, h.branches, Some(d))
  }

  // ---- history operations ----

  function UndoAttempt(
    c: Context, js: seq<Record>, live: Live, requestId: Id, commitId: Id, readable: bool): (a: Attempt)
    ensures New(a, c, js, requestId, commitId, readable) && Moves(a, live)
  {
    match Enter(c, js, live, requestId, readable)
    case Shut => Refused
    case Earlier(r) => if OperationOf(r).Undo? then Answered(At(r.revision)) else Refused
    case Open(h) =>
      if h.head.None? then ReceiptAttempt(c, h, live, requestId, commitId, Undo, NoEffects)
      else if h.head.value !in h.parents then Refused
      else MoveAttempt(c, js, h, live, requestId, commitId, Undo, NoEffects, h.parents[h.head.value])
  }

  function RedoAttempt(
    c: Context, js: seq<Record>, live: Live, requestId: Id, commitId: Id, readable: bool): (a: Attempt)
    ensures New(a, c, js, requestId, commitId, readable) && Moves(a, live)
  {
    match Enter(c, js, live, requestId, readable)
    case Shut => Refused
    case Earlier(r) => if OperationOf(r).Redo? then Answered(At(r.revision)) else Refused
    case Open(h) =>
      match RedoTarget(h)
      case Err => Refused
      case Ok(None) => ReceiptAttempt(c, h, live, requestId, commitId, Redo, NoEffects)
      case Ok(target) => MoveAttempt(c, js, h, live, requestId, commitId, Redo, NoEffects, target)
  }

  function CheckoutAttempt(
    c: Context, js: seq<Record>, live: Live, requestId: Id, commitId: Id, readable: bool, target: Id): (a: Attempt)
    ensures New(a, c, js, requestId, commitId, readable) && Moves(a, live)
  {
    match Enter(c, js, live, requestId, readable)
    case Shut => Refused
    case Earlier(r) =>
      if OperationOf(r).Checkout? && r.effects.target == Some(Some(target)) then Answered(At(r.revision)) else Refused
    case Open(h) => MoveAttempt(c, js, h, live, requestId, commitId, Checkout, NoEffects, Some(target))
  }

  predicate ValidBranchName(name: Id) {
    name != "" && forall x | x in name :: IsIdentifierChar(x)
  }

  /** The length of a text in UTF-8. */
  function ByteLength(s: string): nat {
    if s == "" then 0
    else
      var ch := s[|s| - 1] as int;
      ByteLength(s[..|s| - 1]) + (if ch < 0x80 then 1 else if ch < 0x800 then 2 else if ch < 0x10000 then 3 else 4)
  }

  predicate ValidBranchRequest(name: Id, target: Option<Id>, title: Option<string>) {
    && (title.Some? ==> ByteLength(title.value) <= 1024)
    && (target.Some? ==> 1 <= ByteLength(target.value) <= 256)
    && ValidBranchName(name)
  }

  /** None if the asked target does not pass the kind test. */
  function BranchTarget(js: seq<Record>, h: HistoryState, target: Option<Id>): Option<Option<Id>> {
    if target.None? then Some(h.head)
    else if target.value == "base" then Some(None)
    else if exists i | 0 <= i < |js| :: js[i].commitId == target.value && CarriesDocument(js[i].transition)
      then Some(target)
    else None
  }

  function BranchEffects(name: Id, target: Option<Id>, title: Option<string>, resolved: Option<Id>): Effects {
    if target.None? && title.None? then NoEffects.(branchName := Some(name))
    else NoEffects.(branchName := Some(name), branchTarget := Some(resolved), requested := Some(target), title := title)
  }

  function CreateBranchAttempt(
    c: Context, js: seq<Record>, live: Live, requestId: Id, commitId: Id, readable: bool,
    name: Id, target: Option<Id>, title: Option<string>): (a: Attempt)
    ensures New(a, c, js, requestId, commitId, readable) && Moves(a, live)
  {
    if !ValidBranchRequest(name, target, title) then Refused
    else
      match Enter(c, js, live, requestId, readable)
      case Shut => Refused
      case Earlier(r) =>
        if OperationOf(r).BranchCreate? && r.effects.branchName == Some(name)
          && r.effects.requested.GetOr(None) == target && r.effects.title == title
        then Answered(At(r.revision)) else Refused
      case Open(h) =>
        if name in h.branches then Refused
        else
          match BranchTarget(js, h, target)
          case None => Refused
          case Some(resolved) =>
            ControlAttempt(
              c, h, live, requestId, commitId, BranchCreate, BranchEffects(name, target, title, resolved),
              h.head, h.branch, h.branches[name := resolved], None)
  }

  function SwitchBranchAttempt(
    c: Context, js: seq<Record>, live: Live, requestId: Id, commitId: Id, readable: bool, name: Id): (a: Attempt)
    ensures New(a, c, js, requestId, commitId, readable) && Moves(a, live)
  {
    match Enter(c, js, live, requestId, readable)
    case Shut => Refused
    case Earlier(r) =>
      if OperationOf(r).BranchSwitch? && r.effects.branchName == Some(name) then Answered(At(r.revision)) else Refused
    case Open(h) =>
      if name !in h.branches then Refused
      else
        var target := h.branches[name];
        var d := if target == h.head then None else HeadDoc(js, c.shelf.base, target);
        if target != h.head && d.None? then Refused
        else ControlAttempt(
          c, h, live, requestId, commitId, BranchSwitch, NoEffects.(branchName := Some(name)), target, name,
          h.branches, d)
  }

  // ---- checkpoints ----

  function SaveCheckpointAttempt(
    c: Context, js: seq<Record>, live: Live, requestId: Id, commitId: Id, readable: bool,
    title: Option<string>): (a: Attempt)
    ensures New(a, c, js, requestId, commitId, readable) && Moves(a, live)
  {
    var e := NoEffects.(title := title);
    match Enter(c, js, live, requestId, readable)
    case Shut => Refused
    case Earlier(r) =>
      if OperationOf(r).Checkpoint? && Undressed(r.effects) == e then Answered(At(r.revision)) else Refused
    case Open(h) => ControlAttempt(c, h, live, requestId, commitId, Checkpoint, e, h.head, h.branch, h.branches, None)
  }

  function RestoreCheckpointAttempt(
    c: Context, js: seq<Record>, live: Live, requestId: Id, commitId: Id, readable: bool, id: Id): (a: Attempt)
    ensures New(a, c, js, requestId, commitId, readable) && Moves(a, live)
  {
    match Enter(c, js, live, requestId, readable)
    case Shut => Refused
    case Earlier(r) =>
      if OperationOf(r).Checkout? && r.effects.checkpoint == Some(id) then Answered(At(r.revision)) else Refused
    case Open(h) =>
      if id !in h.checkpoints then Refused
      else MoveAttempt(
        c, js, h, live, requestId, commitId, Checkout, NoEffects.(checkpoint := Some(id)), h.checkpoints[id].head)
  }

  function DeleteCheckpointAttempt(
    c: Context, js: seq<Record>, live: Live, requestId: Id, commitId: Id, readable: bool, id: Id): (a: Attempt)
    ensures New(a, c, js, requestId, commitId, readable) && Moves(a, live)
  {
    var e := NoEffects.(checkpoint := Some(id));
    match Enter(c, js, live, requestId, readable)
    case Shut => Refused
    case Earlier(r) =>
      if OperationOf(r).CheckpointDelete? && Undressed(r.effects) == e then Answered(At(r.revision)) else Refused
    case Open(h) =>
      if id !in h.checkpoints then Refused
      else ControlAttempt(c, h, live, requestId, commitId, CheckpointDelete, e, h.head, h.branch, h.branches, None)
  }

  // ---- calculation ----

  function RevokeAttempt(
    c: Context, js: seq<Record>, live: Live, requestId: Id, commitId: Id, readable: bool): (a: Attempt)
    ensures New(a, c, js, requestId, commitId, readable) && Moves(a, live)
  {
    var e := NoEffects.(revocation := true);
    match Enter(c, js, live, requestId, readable)
    case Shut => Refused
    case Earlier(r) =>
      if OperationOf(r).CalculationInvalidate? && r.effects.revocation then Answered(At(r.revision)) else Refused
    case Open(h) =>
      if live.book.stamp.Dirty? then ReceiptAttempt(c, h, live, requestId, commitId, CalculationInvalidate, e)
      else ControlAttempt(c, h, live, requestId, commitId, CalculationInvalidate, e, h.head, h.branch, h.branches, None)
  }

  /** `evaluation` is what the engine computed, or None if it failed. */
  function RecalculateAttempt(
    c: Context, js: seq<Record>, live: Live, requestId: Id, commitId: Id, readable: bool,
    timeout: Option<nat>, evaluation: Option<map<Addr, string>>): (a: Attempt)
    ensures New(a, c, js, requestId, commitId, readable) && Moves(a, live)
  {
    if requestId == "" then Refused
    else
      match Enter(c, js, live, requestId, readable)
      case Shut => Refused
      case Earlier(r) =>
        if OperationOf(r).CalculationPublish? && r.effects.calculation.Some?
          && r.effects.calculation.value.timeout == timeout
        then Answered(Calculated(r.effects.calculation.value)) else Refused
      case Open(h) =>
        match evaluation
        case None => Broken
        case Some(results) =>
          var after := live.book.revision.Noted();
          var proof := Proof(timeout, after, true);
          Proposed(
            BaseRecord(
              c, h, live, requestId, commitId, CalculationPrint(c.shelf.base, live.book.revision, timeout),
              CalculationPublish, NoEffects.(calculation := Some(proof))).(
                generation := h.generation, revision := after),
            if OnFormulas(live.book.doc, results)
            then Some(live.(book := Book(Cached(live.book.doc, results), after, Current))) else None,
            Calculated(proof))
  }

  // ---- the staged catalog ----

  function DiscardAttempt(
    c: Context, js: seq<Record>, live: Live, requestId: Id, commitId: Id, readable: bool, change: Id): (a: Attempt)
    ensures New(a, c, js, requestId, commitId, readable) && Moves(a, live)
  {
    var e := NoEffects.(discard := Some(change));
    if requestId == "" then Refused
    else
      match Enter(c, js, live, requestId, readable)
      case Shut => Refused
      case Earlier(r) =>
        if OperationOf(r).CatalogDiscard? && r.effects.discard == Some(change)
        then Answered(Discarded(r.effects.receiptOf.None?)) else Refused
      case Open(h) =>
        if change !in live.staged then
          var receipt := ReceiptAttempt(c, h, live, requestId, commitId, CatalogDiscard, e);
          if receipt.Proposed? then receipt.(reply := Discarded(false)) else receipt
        else Proposed(
          BaseRecord(c, h, live, requestId, commitId, DiscardPrint(change, live.book.revision), CatalogDiscard, e).(
            generation := live.generation + 1),
          Some(live.(staged := live.staged - {change}, generation := live.generation + 1)),
          Discarded(true))
  }

  // ---- writes ----

  function OwnerOf(c: Context, live: Live): Owner {
    Owner(c.engine, c.shelf.session, c.shelf.base, live.book.doc, live.book.revision)
  }

  function PublishedBook(book: Book, p: Publication): Option<Book> {
    var doc :- Publish(book.doc, p, true);
    match p
    case NoPublication => Some(book)
    case Cells(effects) => Some(if effects == [] then book else Book(doc, book.revision.Edited(), Dirty))
    case Snapshot(_, _, calculation) => Some(book.Replaced(doc, calculation))
  }

  function StagedInto(live: Live, p: Prepared): Option<Live> {
    var staged :- if p.staged.None? then Some(live)
      else if p.staged.value.0 in live.staged then None
      else Some(live.(staged := live.staged[p.staged.value.0 := p.staged.value.1], generation := live.generation + 1));
    if p.consume.None? then Some(staged)
    else if p.consume.value !in staged.staged then None
    else Some(staged.(staged := staged.staged - {p.consume.value}, generation := staged.generation + 1))
  }

  function PublishPrepared(c: Context, live: Live, p: Prepared): Option<Live> {
    if p.base != c.shelf.base then None
    else
      var book :- PublishedBook(live.book, p.publication);
      var next :- StagedInto(live.(book := book), p);
      if next.book.revision != p.response.after then None else Some(next)
  }

  function WriteTransition(p: Prepared): Transition {
    if p.publication.NoPublication? && p.staged.None? && p.consume.None? then Receipt
    else if p.consume.Some? then StageApply
    else if p.staged.Some? then CatalogStage
    else Mutation
  }

  function WriteRecord(
    c: Context, h: HistoryState, live: Live, requestId: Id, commitId: Id, token: Print, p: Prepared): Record {
    var r := BaseRecord(c, h, live, requestId, commitId, token, WriteTransition(p), NoEffects.(prepared := Some(p))).(
      generation := live.generation + (if p.staged.Some? || p.consume.Some? then 1 else 0),
      revision := p.response.after);
    if p.publication.NoPublication? then r
    else r.(historyParent := h.head, head := Some(commitId), branches := h.branches[h.branch := Some(commitId)])
  }

  /** `prepared` is what preparation made of the request, or None if it refused. */
  function WriteAttempt(
    c: Context, js: seq<Record>, live: Live, requestId: Id, commitId: Id, readable: bool,
    request: Request, consume: Option<Id>, prepared: Option<Prepared>): (a: Attempt)
    ensures New(a, c, js, requestId, commitId, readable) && Moves(a, live)
  {
    var token := WritePrint(c.shelf.base, consume, request);
    if requestId == "" || !readable || request.resource != c.shelf.session then Refused
    else
      match Replay(c.shelf.session, c.shelf.base, js)
      case None => Refused
      case Some(h) =>
        if js != [] && (js[|js| - 1].revision != live.book.revision || js[|js| - 1].generation != live.generation)
          then Broken
        else
          match FirstWith(js, requestId)
          case Some(i) =>
            if js[i].fingerprint != token || js[i].effects.prepared.None? then Refused
            else Answered(Wrote(js[i].effects.prepared.value.response))
          case None =>
            if prepared.None? then Refused
            else
              var p := prepared.value.(consume := consume);
              if request.mode.Preview? || p.response.kind.WasFailed? || p.response.kind.WasRolledBack?
                then Answered(Wrote(p.response))
              else Proposed(
                WriteRecord(c, h, live, requestId, commitId, token, p), PublishPrepared(c, live, p), Wrote(p.response))
  }

  function ApplyRequest(c: Context, expected: Revision, bundle: Bundle): Request {
    Request(c.shelf.session, expected, Apply, bundle.atomic, bundle.ops, None)
  }

  function ApplyStagedAttempt(
    c: Context, js: seq<Record>, live: Live, requestId: Id, commitId: Id, readable: bool,
    change: Id, expected: Revision, prepared: Option<Prepared>): (a: Attempt)
    ensures New(a, c, js, requestId, commitId, readable) && Moves(a, live)
  {
    if requestId == "" then Refused
    else
      match Enter(c, js, live, requestId, readable)
      case Shut => Refused
      case Earlier(r) =>
        if r.effects.prepared.None? || !OperationOf(r).StageApply?
          || r.effects.prepared.value.consume != Some(change) || r.effects.prepared.value.response.before != expected
        then Refused else Answered(Wrote(r.effects.prepared.value.response))
      case Open(h) =>
        if change !in live.staged || live.staged[change].base != live.book.revision || expected != live.book.revision
          then Refused
        else WriteAttempt(
          c, js, live, requestId, commitId, readable, ApplyRequest(c, expected, live.staged[change]), Some(change),
          prepared)
  }

  // ---- all requests ----

  datatype Op =
    | WriteOn(request: Request, changeId: Id, prepared: Option<Prepared>)
    | ApplyStaged(change: Id, expected: Revision, prepared: Option<Prepared>)
    | DiscardStaged(change: Id)
    | UndoOnce
    | RedoOnce
    | CheckoutAt(target: Id)
    | NewBranch(name: Id, from: Option<Id>, title: Option<string>)
    | ToBranch(name: Id)
    | SaveCheckpoint(title: Option<string>)
    | RestoreCheckpoint(id: Id)
    | DeleteCheckpoint(id: Id)
    | RevokeCalculation
    | Recalculate(timeout: Option<nat>, evaluation: Option<map<Addr, string>>)

  function AttemptOf(
    c: Context, js: seq<Record>, live: Live, requestId: Id, commitId: Id, readable: bool, op: Op): (a: Attempt)
    ensures New(a, c, js, requestId, commitId, readable) && Moves(a, live)
  {
    match op
    case WriteOn(request, _, prepared) =>
      WriteAttempt(c, js, live, requestId, commitId, readable, request, None, prepared)
    case ApplyStaged(change, expected, prepared) =>
      ApplyStagedAttempt(c, js, live, requestId, commitId, readable, change, expected, prepared)
    case DiscardStaged(change) => DiscardAttempt(c, js, live, requestId, commitId, readable, change)
    case UndoOnce => UndoAttempt(c, js, live, requestId, commitId, readable)
    case RedoOnce => RedoAttempt(c, js, live, requestId, commitId, readable)
    case CheckoutAt(target) => CheckoutAttempt(c, js, live, requestId, commitId, readable, target)
    case NewBranch(name, target, title) =>
      CreateBranchAttempt(c, js, live, requestId, commitId, readable, name, target, title)
    case ToBranch(name) => SwitchBranchAttempt(c, js, live, requestId, commitId, readable, name)
    case SaveCheckpoint(title) => SaveCheckpointAttempt(c, js, live, requestId, commitId, readable, title)
    case RestoreCheckpoint(id) => RestoreCheckpointAttempt(c, js, live, requestId, commitId, readable, id)
    case DeleteCheckpoint(id) => DeleteCheckpointAttempt(c, js, live, requestId, commitId, readable, id)
    case RevokeCalculation => RevokeAttempt(c, js, live, requestId, commitId, readable)
    case Recalculate(timeout, evaluation) =>
      RecalculateAttempt(c, js, live, requestId, commitId, readable, timeout, evaluation)
  }

  /** The prepared transaction an operation carries is one preparation makes of its request. */
  ghost predicate WellPrepared(c: Context, live: Live, op: Op) {
    match op
    case WriteOn(request, changeId, prepared) => PreparationOf(c, live, request, changeId, prepared)
    case ApplyStaged(change, expected, prepared) =>
      change in live.staged ==> PreparationOf(c, live, ApplyRequest(c, expected, live.staged[change]), "", prepared)
    case _ => true
  }

  ghost predicate PreparationOf(c: Context, live: Live, request: Request, changeId: Id, prepared: Option<Prepared>) {
    if Admissible(OwnerOf(c, live), request)
    then prepared.Some? && PreparedFor(OwnerOf(c, live), request, changeId, prepared.value)
    else prepared.None?
  }
}
