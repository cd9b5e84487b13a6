/**
  The resident owner: a live workbook, its staged catalog and its poison flag, updated in place by
  durable requests that journal first and publish second.
 */
module Sessions {
  import opened Wrappers
  import opened Documents
  import opened Writes
  import opened Preparation
  import opened History
  import opened Ancestry
  import opened Journals
  import opened Protocol
  import opened Runs
  import opened Recovery

  /** The authoritative in-memory workbook. */
  class ResidentWorkbook {
    var doc: Doc
    var revision: Revision
    var stamp: Stamp

    function State(): Book
      reads this
    {
      Book(doc, revision, stamp)
    }

    constructor (bytes: Doc, epoch: string)
      ensures State() == Book(bytes, Revision(epoch, 0, 0), NotEvaluated)
    {
      doc, revision, stamp := bytes, Revision(epoch, 0, 0), NotEvaluated;
    }

    /** All preconditions are checked before any cell is assigned. */
    method PublishPreparedCells(effects: seq<CellEffect>) returns (ok: bool)
      modifies this
      ensures ok <==> AllBefore(old(doc), effects, true)
      ensures State() == if ok && effects != []
        then Book(Assign(old(doc), effects), old(revision).Edited(), Dirty) else old(State())
    {
      for i := 0 to |effects|
        invariant AllBefore(doc, effects[..i], true)
        invariant State() == old(State())
      {
        if !Before(doc, effects[i], true) {
          return false;
        }
      }
      for i := 0 to |effects|
        invariant doc == Assign(old(doc), effects[..i]) && revision == old(revision) && stamp == old(stamp)
      {
        assert effects[..i + 1][..i] == effects[..i];
        doc := doc.Put(effects[i].addr, effects[i].after);
      }
      assert effects[..|effects|] == effects;
      if effects != [] {
        revision, stamp := revision.Edited(), Dirty;
      }
      return true;
    }

    method ReplaceFromBytes(bytes: Doc, calculation: CalculationEffect)
      modifies this
      ensures State() == old(State()).Replaced(bytes, calculation)
    {
      doc, revision := bytes, revision.Edited();
      if calculation.Invalidate? {
        stamp := Dirty;
      }
    }

    method AdvanceMetadataState()
      modifies this
      ensures State() == old(State()).Noted()
    {
      revision := revision.Noted();
    }

    method RevokeCalculationProof()
      modifies this
      ensures State() == old(State()).Revoked()
    {
      if !stamp.Dirty? {
        revision, stamp := revision.Noted(), Dirty;
      }
    }

    method PublishPreparedCalculation(results: map<Addr, string>) returns (ok: bool)
      modifies this
      ensures ok <==> OnFormulas(old(doc), results)
      ensures ok ==> State() == Book(Cached(old(doc), results), old(revision).Noted(), Current)
      ensures !ok ==> State() == old(State()).Revoked()
    {
      ok := OnFormulas(doc, results);
      if ok {
        doc, revision, stamp := Cached(doc, results), revision.Noted(), Current;
      } else {
        RevokeCalculationProof();
      }
    }

    /** Puts back a document rebuilt from the journal and crosses the restart boundary. */
    method RestoreAcrossRestart(rebuilt: Doc, at: Option<Revision>)
      modifies this
      ensures State() == if at.Some? then Book(rebuilt, at.value.Noted(), Dirty)
        else Book(rebuilt, old(revision), old(stamp))
    {
      doc := rebuilt;
      if at.Some? {
        revision, stamp := at.value.Noted(), Dirty;
      }
    }
  }

  datatype Fate = Stored | Absent | Unknown

  /** What a session can find out about the record it tried to append. */
  function FateOf(c: Context, js: seq<Record>, r: Record, f: Faults): Fate {
    var (js', durable) := CommitTo(c.shelf, js, r, f.fault);
    if durable.Err? && !f.answers then Unknown
    else if durable.Err? && js' == js then Absent
    else Stored
  }

  lemma SettleByFate(c: Context, js: seq<Record>, live: Live, a: Attempt, f: Faults)
    requires a.Proposed?
    ensures Settle(c, js, live, a, f) == (
      CommitTo(c.shelf, js, a.record, f.fault).0,
      match FateOf(c, js, a.record, f) { case Unknown => None case Absent => Some(live) case Stored => a.next },
      if FateOf(c, js, a.record, f).Stored? && a.next.Some? then Ok(a.reply) else Err)
  {
    hide CommitTo;
  }

  /** The request alone, without what preparation made of it. */
  function Unprepared(op: Op): Op {
    match op
    case WriteOn(request, changeId, _) => Op.WriteOn(request, changeId, None)
    case ApplyStaged(change, expected, _) => Op.ApplyStaged(change, expected, None)
    case _ => op
  }

  lemma ControlSettles(
    c: Context, js: seq<Record>, h: HistoryState, live: Live, requestId: Id, commitId: Id, t: Transition, e: Effects,
    head: Option<Id>, branch: Id, branches: map<Id, Option<Id>>, target: Option<Doc>, f: Faults)
    ensures requestId == "" ==>
      Settle(c, js, live, ControlAttempt(c, h, live, requestId, commitId, t, e, head, branch, branches, target), f)
        == (js, Some(live), Err)
    ensures requestId != "" ==>
      var count := if CountsInCatalog(t) then 1 else 0;
      var predicted := ControlRevision(live.book, t, target);
      var proposed := BaseRecord(
        c, h, live, requestId, commitId, ControlPrint(c.shelf.base, t, e, head, branch, branches), t, e).(
        head := head, branch := branch, branches := branches, generation := live.generation + count,
          revision := predicted);
      var published := live.(book := ControlBook(live.book, t, target), generation := live.generation + count);
      var reached := published.book.revision == predicted;
      Settle(c, js, live, ControlAttempt(c, h, live, requestId, commitId, t, e, head, branch, branches, target), f) == (
        CommitTo(c.shelf, js, proposed, f.fault).0,
        match FateOf(c, js, proposed, f) {
          case Unknown => None
          case Absent => Some(live)
          case Stored => if reached then Some(published) else None
        },
        if FateOf(c, js, proposed, f).Stored? && reached then Ok(At(predicted)) else Err)
  {
    hide CommitTo, FateOf, ControlRevision, ControlBook, Tagged, Moves, CountsInCatalog, BaseRecord;
    if requestId != "" {
      hide Settle;
      SettleByFate(
        c, js, live, ControlAttempt(c, h, live, requestId, commitId, t, e, head, branch, branches, target), f);
    }
  }

  /** The length of a text in UTF-8, counted character by character. */
  method Utf8Length(s: string) returns (n: nat)
    ensures n == ByteLength(s)
  {
    n := 0;
    for i := 0 to |s|
      invariant n == ByteLength(s[..i])
    {
      assert s[..i + 1][..i] == s[..i];
      if s[i] <= '\U{007F}' {
        n := n + 1;
      } else if s[i] <= '\U{07FF}' {
        n := n + 2;
      } else if s[i] <= '\U{FFFF}' {
        n := n + 3;
      } else {
        n := n + 4;
      }
    }
    assert s[..|s|] == s;
  }

  method ValidateBranchRequest(name: Id, target: Option<Id>, title: Option<string>) returns (ok: bool)
    ensures ok <==> ValidBranchRequest(name, target, title)
  {
    if title.Some? {
      var bytes := Utf8Length(title.value);
      if bytes > 1024 {
        return false;
      }
    }
    if target.Some? {
      var bytes := Utf8Length(target.value);
      if bytes == 0 || bytes > 256 {
        return false;
      }
    }
    if name == "" {
      return false;
    }
    for i := 0 to |name|
      invariant forall k | 0 <= k < i :: IsIdentifierChar(name[k])
    {
      var ch := name[i];
      assert ch in name;
      if !(('a' <= ch && ch <= 'z') || ('A' <= ch && ch <= 'Z') || ('0' <= ch && ch <= '9') || ch == '_' || ch == '-') {
        return false;
      }
    }
    return true;
  }

  class ResidentSession {
    const c: Context
    const book: ResidentWorkbook
    var staged: map<Id, Bundle>
    var generation: nat
    var poisoned: bool

    function Current(): Live
      reads this, book
    {
      Live(book.State(), staged, generation)
    }

    /** What the session offers its callers: nothing once it is poisoned. */
    function Offered(): Option<Live>
      reads this, book
    {
      if poisoned then None else Some(Current())
    }

    constructor (c: Context, epoch: string)
      ensures this.c == c && fresh(book)
      ensures Offered() == Some(Live(Book(c.shelf.base, Revision(epoch, 0, 0), NotEvaluated), map[], 0))
    {
      this.c := c;
      book := new ResidentWorkbook(c.shelf.base, epoch);
      staged, generation, poisoned := map[], 0, false;
    }

    ghost predicate Serves(journal: Journal) {
      journal.shelf == c.shelf
    }

    // ---- shared steps ----

    method EnterRequest(journal: Journal, requestId: Id, readable: bool) returns (g: Gate)
      requires Serves(journal) && !poisoned
      ensures g == Enter(c, journal.records, Current(), requestId, readable)
    {
      if !readable {
        return Shut;
      }
      var loaded := journal.Load(c.shelf.session);
      var history := ReplayBound(c.shelf.session, c.shelf.base, loaded.value);
      if history.None? || !Synced(history.value, Current()) {
        return Shut;
      }
      for i := 0 to |loaded.value|
        invariant FirstWith(loaded.value[..i], requestId).None?
      {
        assert loaded.value[..i + 1][..i] == loaded.value[..i];
        if loaded.value[i].requestId == requestId {
          FirstIsFirst(loaded.value, requestId, i);
          var known := journal.Reconcile(c.shelf.session, requestId, loaded.value[i].fingerprint);
          return if known.Ok? && known.value.Some? then Earlier(loaded.value[i]) else Shut;
        }
      }
      assert loaded.value[..|loaded.value|] == loaded.value;
      return Open(history.value);
    }

    /** Appends one record and, if the acknowledgement is missing, asks the journal what became of it. */
    method CommitRecord(journal: Journal, r: Record, f: Faults) returns (fate: Fate)
      requires Serves(journal) && journal.Valid()
      requires r.session == c.shelf.session && FirstWith(journal.records, r.requestId).None?
      modifies journal
      ensures journal.Valid()
      ensures journal.records == CommitTo(c.shelf, old(journal.records), r, f.fault).0
      ensures fate == FateOf(c, old(journal.records), r, f)
    {
      ReconcileAfterCommit(c.shelf, journal.records, r, f.fault);
      var durable := journal.Commit(r, f.fault);
      if durable.Ok? {
        return Stored;
      }
      if !f.answers {
        return Unknown;
      }
      var known := journal.Reconcile(c.shelf.session, r.requestId, r.fingerprint);
      return if known.Err? then Unknown else if known.value.None? then Absent else Stored;
    }

    /** Live publication of a control transition already journalled. */
    method PublishControl(t: Transition, target: Option<Doc>)
      modifies this, book
      ensures poisoned == old(poisoned)
      ensures Current() == old(Current()).(
        book := ControlBook(old(book.State()), t, target),
        generation := old(generation) + (if CountsInCatalog(t) then 1 else 0))
    {
      if CountsInCatalog(t) {
        generation := generation + 1;
      } else if t.Receipt? {
      } else if target.Some? {
        book.ReplaceFromBytes(target.value, Invalidate);
      } else if t.CalculationInvalidate? {
        book.RevokeCalculationProof();
      } else {
        book.AdvanceMetadataState();
      }
    }

    /**
      The one way control transitions are made: build the record, store it, publish what it says, and
      stay poisoned if publication does not arrive at the predicted revision.
     */
    method CommitControl(
      journal: Journal, h: HistoryState, requestId: Id, commitId: Id, t: Transition, e: Effects,
      head: Option<Id>, branch: Id, branches: map<Id, Option<Id>>, target: Option<Doc>, f: Faults)
      returns (reply: Result<Reply>)
      requires Serves(journal) && journal.Valid() && !poisoned
      requires FirstWith(journal.records, requestId).None?
      modifies this, book, journal
      ensures journal.Valid()
      ensures (journal.records, Offered(), reply) == Settle(
        c, old(journal.records), old(Current()),
        ControlAttempt(c, h, old(Current()), requestId, commitId, t, e, head, branch, branches, target), f)
    {
      hide CommitTo, FateOf, Replay, Bytes, FirstWith, Settle, ControlAttempt, ControlRevision, ControlBook;
      hide Tagged, Moves, CountsInCatalog;
      ControlSettles(c, journal.records, h, Current(), requestId, commitId, t, e, head, branch, branches, target, f);
      if requestId == "" {
        return Err;
      }
      var count := if CountsInCatalog(t) then 1 else 0;
      var predicted := ControlRevision(book.State(), t, target);
      var token := ControlPrint(c.shelf.base, t, e, head, branch, branches);
      var proposed := BaseRecord(c, h, Current(), requestId, commitId, token, t, e).(
        head := head, branch := branch, branches := branches, generation := generation + count, revision := predicted);
      var fate := CommitRecord(journal, proposed, f);
      if !fate.Stored? {
        poisoned := fate.Unknown?;
        return Err;
      }
      PublishPredicted(t, target, predicted);
      return if poisoned then Err else Ok(At(predicted));
    }

    /** A publication that does not reach the revision its record claims leaves the session poisoned. */
    method PublishPredicted(t: Transition, target: Option<Doc>, predicted: Revision)
      requires !poisoned
      modifies this, book
      ensures
        var published := old(Current()).(
          book := ControlBook(old(book.State()), t, target),
            generation := old(generation) + (if CountsInCatalog(t) then 1 else 0));
        Offered() == if published.book.revision == predicted then Some(published) else None
    {
      hide ControlBook;
      poisoned := true;
      PublishControl(t, target);
      poisoned := book.revision != predicted;
    }

    method CommitReceipt(
      journal: Journal, h: HistoryState, requestId: Id, commitId: Id, operation: Transition, e: Effects, f: Faults)
      returns (reply: Result<Reply>)
      requires Serves(journal) && journal.Valid() && !poisoned
      requires FirstWith(journal.records, requestId).None?
      modifies this, book, journal
      ensures journal.Valid()
      ensures (journal.records, Offered(), reply) == Settle(
        c, old(journal.records), old(Current()),
        ReceiptAttempt(c, h, old(Current()), requestId, commitId, operation, e), f)
    {
      reply := CommitControl(
        journal, h, requestId, commitId, Receipt, e.(receiptOf := Some(operation)), h.head, h.branch, h.branches,
        None, f);
    }

    method MoveHead(
      journal: Journal, h: HistoryState, requestId: Id, commitId: Id, t: Transition, e: Effects, target: Option<Id>,
      f: Faults)
      returns (reply: Result<Reply>)
      requires Serves(journal) && journal.Valid() && !poisoned
      requires FirstWith(journal.records, requestId).None?
      modifies this, book, journal
      ensures journal.Valid()
      ensures (journal.records, Offered(), reply) == Settle(
        c, old(journal.records), old(Current()),
        MoveAttempt(c, old(journal.records), h, old(Current()), requestId, commitId, t, e, target), f)
    {
      var bytes := MaterializeHead(c.shelf.session, c.shelf.base, journal.records, target);
      if bytes.None? {
        return Err;
      }
      reply := CommitControl(
        journal, h, requestId, commitId, t, e.(target := Some(target)), target, h.branch, h.branches, bytes, f);
    }

    // ---- history ----

    method Undo(journal: Journal, requestId: Id, commitId: Id, f: Faults) returns (reply: Result<Reply>)
      requires Serves(journal) && journal.Valid() && !poisoned
      modifies this, book, journal
      ensures journal.Valid()
      ensures (journal.records, Offered(), reply) == Settle(
        c, old(journal.records), old(Current()),
        UndoAttempt(c, old(journal.records), old(Current()), requestId, commitId, f.readable), f)
    {
      var gate := EnterRequest(journal, requestId, f.readable);
      match gate
      case Shut => return Err;
      case Earlier(r) => return if OperationOf(r).Undo? then Ok(At(r.revision)) else Err;
      case Open(h) =>
        if h.head.None? {
          reply := CommitReceipt(journal, h, requestId, commitId, Transition.Undo, NoEffects, f);
        } else if h.head.value !in h.parents {
          return Err;
        } else {
          reply := MoveHead(journal, h, requestId, commitId, Transition.Undo, NoEffects, h.parents[h.head.value], f);
        }
    }

    method Redo(journal: Journal, requestId: Id, commitId: Id, f: Faults) returns (reply: Result<Reply>)
      requires Serves(journal) && journal.Valid() && !poisoned
      modifies this, book, journal
      ensures journal.Valid()
      ensures (journal.records, Offered(), reply) == Settle(
        c, old(journal.records), old(Current()),
        RedoAttempt(c, old(journal.records), old(Current()), requestId, commitId, f.readable), f)
    {
      var gate := EnterRequest(journal, requestId, f.readable);
      match gate
      case Shut => return Err;
      case Earlier(r) => return if OperationOf(r).Redo? then Ok(At(r.revision)) else Err;
      case Open(h) =>
        var target := FindRedoTarget(h);
        if target.Err? {
          return Err;
        }
        if target.value.None? {
          reply := CommitReceipt(journal, h, requestId, commitId, Transition.Redo, NoEffects, f);
        } else {
          reply := MoveHead(journal, h, requestId, commitId, Transition.Redo, NoEffects, target.value, f);
        }
    }

    method Checkout(journal: Journal, requestId: Id, commitId: Id, target: Id, f: Faults) returns (reply: Result<Reply>)
      requires Serves(journal) && journal.Valid() && !poisoned
      modifies this, book, journal
      ensures journal.Valid()
      ensures (journal.records, Offered(), reply) == Settle(
        c, old(journal.records), old(Current()),
        CheckoutAttempt(c, old(journal.records), old(Current()), requestId, commitId, f.readable, target), f)
    {
      var gate := EnterRequest(journal, requestId, f.readable);
      match gate
      case Shut => return Err;
      case Earlier(r) =>
        return if OperationOf(r).Checkout? && r.effects.target == Some(Some(target)) then Ok(At(r.revision)) else Err;
      case Open(h) =>
        reply := MoveHead(journal, h, requestId, commitId, Transition.Checkout, NoEffects, Some(target), f);
    }

    // ---- branches ----

    method CreateBranchAt(
      journal: Journal, requestId: Id, commitId: Id, name: Id, from: Option<Id>, title: Option<string>, f: Faults)
      returns (reply: Result<Reply>)
      requires Serves(journal) && journal.Valid() && !poisoned
      modifies this, book, journal
      ensures journal.Valid()
      ensures (journal.records, Offered(), reply) == Settle(
        c, old(journal.records), old(Current()),
        CreateBranchAttempt(
          c, old(journal.records), old(Current()), requestId, commitId, f.readable, name, from, title), f)
    {
      var valid := ValidateBranchRequest(name, from, title);
      if !valid {
        return Err;
      }
      var gate := EnterRequest(journal, requestId, f.readable);
      match gate
      case Shut => return Err;
      case Earlier(r) =>
        return if OperationOf(r).BranchCreate? && r.effects.branchName == Some(name)
          && r.effects.requested.GetOr(None) == from && r.effects.title == title then Ok(At(r.revision)) else Err;
      case Open(h) =>
        if name in h.branches {
          return Err;
        }
        var resolved := BranchTarget(journal.records, h, from);
        if resolved.None? {
          return Err;
        }
        reply := CommitControl(
          journal, h, requestId, commitId, BranchCreate, BranchEffects(name, from, title, resolved.value),
          h.head, h.branch, h.branches[name := resolved.value], None, f);
    }

    method SwitchBranch(
      journal: Journal, requestId: Id, commitId: Id, name: Id, f: Faults) returns (reply: Result<Reply>)
      requires Serves(journal) && journal.Valid() && !poisoned
      modifies this, book, journal
      ensures journal.Valid()
      ensures (journal.records, Offered(), reply) == Settle(
        c, old(journal.records), old(Current()),
        SwitchBranchAttempt(c, old(journal.records), old(Current()), requestId, commitId, f.readable, name), f)
    {
      var gate := EnterRequest(journal, requestId, f.readable);
      match gate
      case Shut => return Err;
      case Earlier(r) =>
        return if OperationOf(r).BranchSwitch? && r.effects.branchName == Some(name) then Ok(At(r.revision)) else Err;
      case Open(h) =>
        if name !in h.branches {
          return Err;
        }
        var target, bytes := h.branches[name], None;
        if target != h.head {
          bytes := MaterializeHead(c.shelf.session, c.shelf.base, journal.records, target);
          if bytes.None? {
            return Err;
          }
        }
        reply := CommitControl(
          journal, h, requestId, commitId, BranchSwitch, NoEffects.(branchName := Some(name)), target, name,
          h.branches, bytes, f);
    }

    // ---- checkpoints ----

    method SaveCheckpoint(
      journal: Journal, requestId: Id, commitId: Id, title: Option<string>, f: Faults) returns (reply: Result<Reply>)
      requires Serves(journal) && journal.Valid() && !poisoned
      modifies this, book, journal
      ensures journal.Valid()
      ensures (journal.records, Offered(), reply) == Settle(
        c, old(journal.records), old(Current()),
        SaveCheckpointAttempt(c, old(journal.records), old(Current()), requestId, commitId, f.readable, title), f)
    {
      var e := NoEffects.(title := title);
      var gate := EnterRequest(journal, requestId, f.readable);
      match gate
      case Shut => return Err;
      case Earlier(r) =>
        return if OperationOf(r).Checkpoint? && Undressed(r.effects) == e then Ok(At(r.revision)) else Err;
      case Open(h) =>
        reply := CommitControl(journal, h, requestId, commitId, Checkpoint, e, h.head, h.branch, h.branches, None, f);
    }

    method RestoreCheckpoint(
      journal: Journal, requestId: Id, commitId: Id, id: Id, f: Faults) returns (reply: Result<Reply>)
      requires Serves(journal) && journal.Valid() && !poisoned
      modifies this, book, journal
      ensures journal.Valid()
      ensures (journal.records, Offered(), reply) == Settle(
        c, old(journal.records), old(Current()),
        RestoreCheckpointAttempt(c, old(journal.records), old(Current()), requestId, commitId, f.readable, id), f)
    {
      var gate := EnterRequest(journal, requestId, f.readable);
      match gate
      case Shut => return Err;
      case Earlier(r) =>
        return if OperationOf(r).Checkout? && r.effects.checkpoint == Some(id) then Ok(At(r.revision)) else Err;
      case Open(h) =>
        if id !in h.checkpoints {
          return Err;
        }
        reply := MoveHead(
          journal, h, requestId, commitId, Transition.Checkout, NoEffects.(checkpoint := Some(id)),
          h.checkpoints[id].head, f);
    }

    method DeleteCheckpoint(
      journal: Journal, requestId: Id, commitId: Id, id: Id, f: Faults) returns (reply: Result<Reply>)
      requires Serves(journal) && journal.Valid() && !poisoned
      modifies this, book, journal
      ensures journal.Valid()
      ensures (journal.records, Offered(), reply) == Settle(
        c, old(journal.records), old(Current()),
        DeleteCheckpointAttempt(c, old(journal.records), old(Current()), requestId, commitId, f.readable, id), f)
    {
      var e := NoEffects.(checkpoint := Some(id));
      var gate := EnterRequest(journal, requestId, f.readable);
      match gate
      case Shut => return Err;
      case Earlier(r) =>
        return if OperationOf(r).CheckpointDelete? && Undressed(r.effects) == e then Ok(At(r.revision)) else Err;
      case Open(h) =>
        if id !in h.checkpoints {
          return Err;
        }
        reply := CommitControl(
          journal, h, requestId, commitId, CheckpointDelete, e, h.head, h.branch, h.branches, None, f);
    }

    // ---- calculation ----

    method RevokeCalculation(journal: Journal, requestId: Id, commitId: Id, f: Faults) returns (reply: Result<Reply>)
      requires Serves(journal) && journal.Valid() && !poisoned
      modifies this, book, journal
      ensures journal.Valid()
      ensures (journal.records, Offered(), reply) == Settle(
        c, old(journal.records), old(Current()),
        RevokeAttempt(c, old(journal.records), old(Current()), requestId, commitId, f.readable), f)
    {
      var e := NoEffects.(revocation := true);
      var gate := EnterRequest(journal, requestId, f.readable);
      match gate
      case Shut => return Err;
      case Earlier(r) =>
        return if OperationOf(r).CalculationInvalidate? && r.effects.revocation then Ok(At(r.revision)) else Err;
      case Open(h) =>
        if book.stamp.Dirty? {
          reply := CommitReceipt(journal, h, requestId, commitId, CalculationInvalidate, e, f);
        } else {
          reply := CommitControl(
            journal, h, requestId, commitId, CalculationInvalidate, e, h.head, h.branch, h.branches, None, f);
        }
    }

    /** The engine's answer is an input: results per cell, or None if it failed. */
    method Recalculate(
      journal: Journal, requestId: Id, commitId: Id, timeout: Option<nat>, evaluation: Option<map<Addr, string>>,
      f: Faults)
      returns (reply: Result<Reply>)
      requires Serves(journal) && journal.Valid() && !poisoned
      modifies this, book, journal
      ensures journal.Valid()
      ensures (journal.records, Offered(), reply) == Settle(
        c, old(journal.records), old(Current()),
        RecalculateAttempt(
          c, old(journal.records), old(Current()), requestId, commitId, f.readable, timeout, evaluation), f)
    {
      hide CommitTo, FateOf, Replay, Bytes;
      if requestId == "" {
        return Err;
      }
      var gate := EnterRequest(journal, requestId, f.readable);
      match gate
      case Shut => return Err;
      case Earlier(r) =>
        return if OperationOf(r).CalculationPublish? && r.effects.calculation.Some?
          && r.effects.calculation.value.timeout == timeout
          then Ok(Calculated(r.effects.calculation.value)) else Err;
      case Open(h) =>
        if evaluation.None? {
          poisoned := true;
          return Err;
        }
        var predicted := book.revision.Noted();
        var proof := Proof(timeout, predicted, true);
        var proposed := BaseRecord(
          c, h, Current(), requestId, commitId, CalculationPrint(c.shelf.base, book.revision, timeout),
          CalculationPublish,
          NoEffects.(calculation := Some(proof))).(generation := h.generation, revision := predicted);
        ghost var attempt := RecalculateAttempt(
          c, journal.records, Current(), requestId, commitId, f.readable, timeout, evaluation);
        assert attempt.Proposed? && attempt.record == proposed && attempt.reply == Calculated(proof);
        SettleByFate(c, journal.records, Current(), attempt, f);
        hide Settle, RecalculateAttempt, BaseRecord, Enter;
        var fate := CommitRecord(journal, proposed, f);
        if !fate.Stored? {
          poisoned := fate.Unknown?;
          return Err;
        }
        poisoned := true;
        var ok := book.PublishPreparedCalculation(evaluation.value);
        if !ok {
          return Err;
        }
        poisoned := false;
        return Ok(Calculated(proof));
    }

    // ---- the staged catalog ----

    method DiscardStaged(
      journal: Journal, requestId: Id, commitId: Id, change: Id, f: Faults) returns (reply: Result<Reply>)
      requires Serves(journal) && journal.Valid() && !poisoned
      modifies this, book, journal
      ensures journal.Valid()
      ensures (journal.records, Offered(), reply) == Settle(
        c, old(journal.records), old(Current()),
        DiscardAttempt(c, old(journal.records), old(Current()), requestId, commitId, f.readable, change), f)
    {
      hide CommitTo, FateOf, Replay, Bytes;
      if requestId == "" {
        return Err;
      }
      var e := NoEffects.(discard := Some(change));
      var gate := EnterRequest(journal, requestId, f.readable);
      match gate
      case Shut => return Err;
      case Earlier(r) =>
        return if OperationOf(r).CatalogDiscard? && r.effects.discard == Some(change)
          then Ok(Discarded(r.effects.receiptOf.None?)) else Err;
      case Open(h) =>
        if change !in staged {
          reply := CommitReceipt(journal, h, requestId, commitId, CatalogDiscard, e, f);
          return if reply.Ok? then Ok(Discarded(false)) else Err;
        }
        var proposed := BaseRecord(
          c, h, Current(), requestId, commitId, DiscardPrint(change, book.revision), CatalogDiscard, e).(
            generation := generation + 1);
        ghost var attempt := DiscardAttempt(c, journal.records, Current(), requestId, commitId, f.readable, change);
        assert attempt.Proposed? && attempt.record == proposed && attempt.reply == Discarded(true);
        SettleByFate(c, journal.records, Current(), attempt, f);
        hide Settle, DiscardAttempt, BaseRecord, Enter;
        var fate := CommitRecord(journal, proposed, f);
        if !fate.Stored? {
          poisoned := fate.Unknown?;
          return Err;
        }
        staged, generation := staged - {change}, generation + 1;
        return Ok(Discarded(true));
    }

    // ---- writes ----

    /** Publishes document, then catalog entry, then consumption; false leaves the session to its poison. */
    method PublishTransaction(p: Prepared) returns (ok: bool)
      modifies this, book
      ensures poisoned == old(poisoned)
      ensures ok <==> PublishPrepared(c, old(Current()), p).Some?
      ensures ok ==> Current() == PublishPrepared(c, old(Current()), p).value
    {
      if p.base != c.shelf.base {
        return false;
      }
      ghost var was := Current();
      match p.publication {
        case NoPublication =>
        case Cells(effects) =>
          var published := book.PublishPreparedCells(effects);
          if !published {
            return false;
          }
        case Snapshot(before, after, calculation) =>
          if Blank(book.doc) != before {
            return false;
          }
          book.ReplaceFromBytes(after, calculation);
      }
      assert PublishedBook(was.book, p.publication) == Some(book.State());
      if p.staged.Some? {
        if p.staged.value.0 in staged {
          return false;
        }
        staged, generation := staged[p.staged.value.0 := p.staged.value.1], generation + 1;
      }
      if p.consume.Some? {
        if p.consume.value !in staged {
          return false;
        }
        staged, generation := staged - {p.consume.value}, generation + 1;
      }
      return book.revision == p.response.after;
    }

    /** Journals a prepared transaction and then publishes it. */
    method CommitWrite(
      journal: Journal, h: HistoryState, requestId: Id, commitId: Id, token: Print, p: Prepared, f: Faults)
      returns (reply: Result<Reply>)
      requires Serves(journal) && journal.Valid() && !poisoned
      requires FirstWith(journal.records, requestId).None?
      modifies this, book, journal
      ensures journal.Valid()
      ensures (journal.records, Offered(), reply) == Settle(
        c, old(journal.records), old(Current()),
        Proposed(
          WriteRecord(c, h, old(Current()), requestId, commitId, token, p), PublishPrepared(c, old(Current()), p),
          Wrote(p.response)),
        f)
    {
      hide CommitTo, FateOf, Bytes, Replay, PublishPrepared;
      var proposed := WriteRecord(c, h, Current(), requestId, commitId, token, p);
      SettleByFate(
        c, journal.records, Current(), Proposed(proposed, PublishPrepared(c, Current(), p), Wrote(p.response)), f);
      hide Settle;
      var fate := CommitRecord(journal, proposed, f);
      if !fate.Stored? {
        poisoned := fate.Unknown?;
        return Err;
      }
      poisoned := true;
      var ok := PublishTransaction(p);
      if !ok {
        return Err;
      }
      poisoned := false;
      return Ok(Wrote(p.response));
    }

    method ExecuteWrite(
      journal: Journal, requestId: Id, commitId: Id, request: Request, changeId: Id, consume: Option<Id>, f: Faults)
      returns (reply: Result<Reply>, ghost prepared: Option<Prepared>)
      requires Serves(journal) && journal.Valid() && !poisoned
      modifies this, book, journal
      ensures journal.Valid()
      ensures PreparationOf(c, old(Current()), request, changeId, prepared)
      ensures (journal.records, Offered(), reply) == Settle(
        c, old(journal.records), old(Current()),
        WriteAttempt(
          c, old(journal.records), old(Current()), requestId, commitId, f.readable, request, consume, prepared), f)
    {
      hide CommitTo, Bytes, Replay, PublishPrepared, WriteRecord, FirstWith, PreparedFor, Admissible;
      // Preparation only reads, so when it happens makes no difference to any ending.
      var owner := OwnerOf(c, Current());
      var made := Prepare(owner, request, changeId);
      prepared := if made.Ok? then Some(made.value) else None;
      if requestId == "" || !f.readable || request.resource != c.shelf.session {
        return Err, prepared;
      }
      var existing := journal.Load(c.shelf.session);
      var history := ReplayBound(c.shelf.session, c.shelf.base, existing.value);
      if history.None? {
        return Err, prepared;
      }
      var n := |existing.value|;
      if n > 0 && (existing.value[n - 1].revision != book.revision || existing.value[n - 1].generation != generation) {
        poisoned := true;
        return Err, prepared;
      }
      var token := WritePrint(c.shelf.base, consume, request);
      var known := journal.Reconcile(c.shelf.session, requestId, token);
      if known.Err? {
        return Err, prepared;
      }
      if known.value.Some? {
        var committed := existing.value[known.value.value.sequence - 1];
        return if committed.effects.prepared.None? then Err
          else Ok(Wrote(committed.effects.prepared.value.response)), prepared;
      }
      if made.Err? {
        return Err, prepared;
      }
      var p := made.value.(consume := consume);
      if request.mode.Preview? || p.response.kind.WasFailed? || p.response.kind.WasRolledBack? {
        return Ok(Wrote(p.response)), prepared;
      }
      reply := CommitWrite(journal, history.value, requestId, commitId, token, p, f);
    }

    method ApplyStaged(journal: Journal, requestId: Id, commitId: Id, change: Id, expected: Revision, f: Faults)
      returns (reply: Result<Reply>, ghost prepared: Option<Prepared>)
      requires Serves(journal) && journal.Valid() && !poisoned
      modifies this, book, journal
      ensures journal.Valid()
      ensures WellPrepared(c, old(Current()), Op.ApplyStaged(change, expected, prepared))
      ensures (journal.records, Offered(), reply) == Settle(
        c, old(journal.records), old(Current()),
        ApplyStagedAttempt(
          c, old(journal.records), old(Current()), requestId, commitId, f.readable, change, expected, prepared), f)
    {
      hide WriteAttempt, Admissible, PreparedFor, Replay, Bytes, CommitTo, FirstWith, Enter;
      prepared := None;
      if change in staged {
        var made := Prepare(OwnerOf(c, Current()), ApplyRequest(c, expected, staged[change]), "");
        prepared := if made.Ok? then Some(made.value) else None;
      }
      if requestId == "" {
        return Err, prepared;
      }
      var gate := EnterRequest(journal, requestId, f.readable);
      match gate
      case Shut => return Err, prepared;
      case Earlier(r) =>
        return if r.effects.prepared.None? || !OperationOf(r).StageApply?
            || r.effects.prepared.value.consume != Some(change) || r.effects.prepared.value.response.before != expected
          then Err else Ok(Wrote(r.effects.prepared.value.response)), prepared;
      case Open(h) =>
        if change !in staged || staged[change].base != book.revision || expected != book.revision {
          return Err, prepared;
        }
        reply, prepared := ExecuteWrite(
          journal, requestId, commitId, ApplyRequest(c, expected, staged[change]), "", Some(change), f);
    }

    // ---- one request of a run ----

    /**
      Every request of a run, served by the method that implements it: the journal, the session and
      the reply move as the run's step says. `asked` is the request with what preparation made of it.
     */
    method Serve(journal: Journal, requestId: Id, commitId: Id, op: Op, f: Faults)
      returns (reply: Result<Reply>, ghost asked: Op)
      requires Serves(journal) && journal.Valid()
      modifies this, book, journal
      ensures journal.Valid()
      ensures Unprepared(asked) == Unprepared(op)
      ensures old(Offered()).Some? ==> WellPrepared(c, old(Current()), asked)
      ensures (World(journal.records, Offered()), reply)
        == Step(c, World(old(journal.records), old(Offered())), Ask(requestId, commitId, asked, f))
    {
      hide Settle, PreparationOf, WriteAttempt, ApplyStagedAttempt, DiscardAttempt, UndoAttempt, RedoAttempt,
        CheckoutAttempt;
      hide CreateBranchAttempt, SwitchBranchAttempt, SaveCheckpointAttempt, RestoreCheckpointAttempt,
        DeleteCheckpointAttempt;
      hide RevokeAttempt, RecalculateAttempt, Replay, Bytes, New, Moves, Tagged, Admissible, OwnerOf;
      asked := op;
      if poisoned {
        return Err, asked;
      }
      match op
      case WriteOn(request, changeId, _) =>
        ghost var prepared;
        reply, prepared := ExecuteWrite(journal, requestId, commitId, request, changeId, None, f);
        asked := Op.WriteOn(request, changeId, prepared);
      case ApplyStaged(change, expected, _) =>
        ghost var prepared;
        reply, prepared := ApplyStaged(journal, requestId, commitId, change, expected, f);
        asked := Op.ApplyStaged(change, expected, prepared);
      case DiscardStaged(change) => reply := DiscardStaged(journal, requestId, commitId, change, f);
      case UndoOnce => reply := Undo(journal, requestId, commitId, f);
      case RedoOnce => reply := Redo(journal, requestId, commitId, f);
      case CheckoutAt(target) => reply := Checkout(journal, requestId, commitId, target, f);
      case NewBranch(name, from, title) => reply := CreateBranchAt(journal, requestId, commitId, name, from, title, f);
      case ToBranch(name) => reply := SwitchBranch(journal, requestId, commitId, name, f);
      case SaveCheckpoint(title) => reply := SaveCheckpoint(journal, requestId, commitId, title, f);
      case RestoreCheckpoint(id) => reply := RestoreCheckpoint(journal, requestId, commitId, id, f);
      case DeleteCheckpoint(id) => reply := DeleteCheckpoint(journal, requestId, commitId, id, f);
      case RevokeCalculation => reply := RevokeCalculation(journal, requestId, commitId, f);
      case Recalculate(timeout, evaluation) =>
        reply := Recalculate(journal, requestId, commitId, timeout, evaluation, f);
    }
  }

  // ---- recovery ----

  /** Rebuilds a session from records alone; refuses any journal whose document commits do not all rebuild. */
  method RecoverFromRecords(c: Context, epoch: string, js: seq<Record>) returns (session: ResidentSession?)
    ensures session != null <==> Rebuilt(c, js, epoch).Some?
    ensures session != null ==> fresh(session) && fresh(session.book) && session.c == c
    ensures session != null ==> session.Offered() == Rebuilt(c, js, epoch)
  {
    hide Admit;
    var history := ReplayBound(c.shelf.session, c.shelf.base, js);
    if history.None? {
      return null;
    }
    var doc := RecoverDocument(c.shelf.session, c.shelf.base, js, history.value);
    if doc.None? {
      return null;
    }
    var ok, staged, generation := RecoverCatalog(c.shelf.session, c.shelf.base, js);
    if !ok || generation != history.value.generation {
      return null;
    }
    var s := new ResidentSession(c, epoch);
    s.staged, s.generation := staged, generation;
    s.book.RestoreAcrossRestart(doc.value, history.value.revision);
    return s;
  }

  lemma RecoveredByFate(c: Context, js: seq<Record>, call: Call)
    requires call.Recover? && call.faults.readable && js != []
    requires Rebuilt(c, js, call.epoch).Some? && FirstWith(js, call.restartId).None?
    ensures
      var h, live := Replay(c.shelf.session, c.shelf.base, js).value, Rebuilt(c, js, call.epoch);
      var r := RestartRecord(c, h, live.value, call.restartId, call.commitId);
      Recovered(c, js, call) == World(
        CommitTo(c.shelf, js, r, call.faults.fault).0, if FateOf(c, js, r, call.faults).Stored? then live else None)
  {
    hide Replay, Bytes, Rebuildable, Settle, FateOf;
    var h, live := Replay(c.shelf.session, c.shelf.base, js).value, Rebuilt(c, js, call.epoch);
    var a := Proposed(
      RestartRecord(c, h, live.value, call.restartId, call.commitId), live, At(live.value.book.revision));
    SettleByFate(c, js, live.value, a, call.faults);
    FateTells(c, js, a.record, call.faults);
  }

  /** A record is stored or absent as its fate says; only an unknown one may be either. */
  lemma FateTells(c: Context, js: seq<Record>, r: Record, f: Faults)
    requires FirstWith(js, r.requestId).None?
    ensures FateOf(c, js, r, f).Stored? ==> CommitTo(c.shelf, js, r, f.fault).0 == js + [r]
    ensures FateOf(c, js, r, f).Absent? ==> CommitTo(c.shelf, js, r, f.fault).0 == js
  {
    hide Replay, Bytes;
  }

  /** Recovery proper: rebuild, journal the restart boundary, and only then hand the session out. */
  method RecoverDurable(c: Context, journal: Journal, call: Call) returns (session: ResidentSession?)
    requires call.Recover? && journal.shelf == c.shelf && journal.Valid()
    requires FirstWith(journal.records, call.restartId).None?
    modifies journal
    ensures journal.Valid()
    ensures session != null ==> fresh(session) && fresh(session.book)
    ensures World(journal.records, if session != null then session.Offered() else None)
      == Recovered(c, old(journal.records), call)
  {
    hide CommitTo, FateOf, Replay, Rebuilt, Bytes, Settle;
    if !call.faults.readable {
      return null;
    }
    var js := journal.records;
    session := RecoverFromRecords(c, call.epoch, js);
    if session == null || js == [] {
      return;
    }
    RecoveredByFate(c, js, call);
    hide Recovered;
    var history := ReplayBound(c.shelf.session, c.shelf.base, js);
    var r := RestartRecord(c, history.value, session.Current(), call.restartId, call.commitId);
    var fate := session.CommitRecord(journal, r, call.faults);
    if !fate.Stored? {
      return null;
    }
  }
}
