/**
  Commit storage: the owner-local journal, with the failures a durable one can show, and the
  wrapper that stores a caller's canonical response in the very record it answers for.
 */
module Journals {
  import opened Wrappers
  import opened Documents
  import opened Writes
  import opened History
  import opened Ancestry

  const JOURNAL_CAP := 32 * 1024 * 1024

  /** What can go wrong around one append: nothing, no write, or a write whose acknowledgement is lost. */
  datatype Fault = NoFault | BeforeWrite | AfterWrite

  datatype Durable = Durable(commitId: Id, sequence: nat)

  /** A journal's fixed parts: whose it is, and how a record is written as JSON. */
  datatype Shelf = Shelf(session: Id, base: Doc, encode: Record -> string)

  function FirstWith(js: seq<Record>, requestId: Id): (i: Option<nat>)
    ensures i.Some? ==> i.value < |js| && js[i.value].requestId == requestId
    ensures i.None? ==> forall k | 0 <= k < |js| :: js[k].requestId != requestId
  {
    if js == [] then None
    else
      var earlier := FirstWith(js[..|js| - 1], requestId);
      if earlier.Some? then earlier
      else if js[|js| - 1].requestId == requestId then Some(|js| - 1)
      else None
  }

  function Reconciled(js: seq<Record>, requestId: Id, token: Print): Result<Option<Durable>> {
    match FirstWith(js, requestId)
    case None => Ok(None)
    case Some(i) => if js[i].fingerprint != token then Err else Ok(Some(Durable(js[i].commitId, i + 1)))
  }

  function Bytes(s: Shelf, js: seq<Record>): nat {
    if js == [] then 2 else Bytes(s, js[..|js| - 1]) + |s.encode(js[|js| - 1])| + 1
  }

  /** The journal and the answer after one commit call. */
  function CommitTo(s: Shelf, js: seq<Record>, r: Record, fault: Fault): (seq<Record>, Result<Durable>) {
    var known := Reconciled(js, r.requestId, r.fingerprint);
    if known.Err? then (js, Err)
    else if known.value.Some? then (js, if fault.NoFault? then Ok(known.value.value) else Err)
    else if Bytes(s, js) + |s.encode(r)| + 1 > JOURNAL_CAP then (js, Err)
    else if Replay(s.session, s.base, js + [r]).None? then (js, Err)
    else
      match fault
      case NoFault => (js + [r], Ok(Durable(r.commitId, |js| + 1)))
      case BeforeWrite => (js, Err)
      case AfterWrite => (js + [r], Err)
  }

  class Journal {
    const shelf: Shelf
    var records: seq<Record>
    var bytes: nat

    ghost predicate Valid()
      reads this
    {
      && Replay(shelf.session, shelf.base, records).Some?
      && bytes == Bytes(shelf, records) <= JOURNAL_CAP
    }

    constructor (shelf: Shelf)
      ensures Valid() && records == [] && this.shelf == shelf
    {
      this.shelf := shelf;
      records, bytes := [], 2;
    }

    method Load(session: Id) returns (r: Result<seq<Record>>)
      ensures r == if session == shelf.session then Ok(records) else Err
    {
      if session != shelf.session {
        return Err;
      }
      return Ok(records);
    }

    method Reconcile(session: Id, requestId: Id, token: Print) returns (r: Result<Option<Durable>>)
      ensures r == if session == shelf.session then Reconciled(records, requestId, token) else Err
    {
      if session != shelf.session {
        return Err;
      }
      for index := 0 to |records|
        invariant FirstWith(records[..index], requestId).None?
      {
        assert records[..index + 1][..index] == records[..index];
        if records[index].requestId == requestId {
          FirstIsFirst(records, requestId, index);
          if records[index].fingerprint != token {
            return Err;
          }
          return Ok(Some(Durable(records[index].commitId, index + 1)));
        }
      }
      assert records[..|records|] == records;
      return Ok(None);
    }

    method Commit(prepared: Record, fault: Fault) returns (r: Result<Durable>)
      requires Valid()
      modifies this
      ensures Valid()
      ensures prepared.session != shelf.session ==> r.Err? && records == old(records)
      ensures prepared.session == shelf.session ==> (records, r) == CommitTo(shelf, old(records), prepared, fault)
    {
      if prepared.session != shelf.session {
        return Err;
      }
      var known := Reconcile(prepared.session, prepared.requestId, prepared.fingerprint);
      if known.Err? {
        return Err;
      }
      if known.value.Some? {
        return if fault.NoFault? then Ok(known.value.value) else Err;
      }
      var nextBytes := bytes + |shelf.encode(prepared)| + 1;
      if nextBytes > JOURNAL_CAP {
        return Err;
      }
      var extended := records + [prepared];
      var replayed := ReplayBound(shelf.session, shelf.base, extended);
      if replayed.None? || fault.BeforeWrite? {
        return Err;
      }
      assert extended[..|records|] == records;
      records, bytes := extended, nextBytes;
      if fault.AfterWrite? {
        return Err;
      }
      return Ok(Durable(prepared.commitId, |records|));
    }
  }

  lemma {:induction false} FirstIsFirst(js: seq<Record>, requestId: Id, i: nat)
    requires i < |js| && js[i].requestId == requestId
    requires FirstWith(js[..i], requestId).None?
    ensures FirstWith(js, requestId) == Some(i)
  {
    var older := js[..|js| - 1];
    if i < |js| - 1 {
      assert older[..i] == js[..i];
      FirstIsFirst(older, requestId, i);
    }
  }

  /** Append-only: a commit call extends the journal by its own record or leaves it alone. */
  lemma CommitAppends(s: Shelf, js: seq<Record>, r: Record, fault: Fault)
    ensures
      var (js', reply) := CommitTo(s, js, r, fault);
      && (js' == js || (js' == js + [r] && FirstWith(js, r.requestId).None? && Replay(s.session, s.base, js').Some?))
      && (reply.Ok? ==>
            exists i :: 0 <= i < |js'| && js'[i].requestId == r.requestId && js'[i].fingerprint == r.fingerprint
              && reply.value == Durable(js'[i].commitId, i + 1))
  {
    hide Replay, Bytes, FirstWith;
    var (js', reply) := CommitTo(s, js, r, fault);
    if reply.Ok? {
      var i := reply.value.sequence - 1;
      assert 0 <= i < |js'| && js'[i].requestId == r.requestId && js'[i].fingerprint == r.fingerprint;
      assert reply.value == Durable(js'[i].commitId, i + 1);
    }
  }

  /** The answer a reconciliation gives after a commit call says whether the record is there. */
  lemma ReconcileAfterCommit(s: Shelf, js: seq<Record>, r: Record, fault: Fault)
    requires FirstWith(js, r.requestId).None?
    ensures
      var js' := CommitTo(s, js, r, fault).0;
      Reconciled(js', r.requestId, r.fingerprint) == Ok(if js' == js then None else Some(Durable(r.commitId, |js'|)))
  {
    hide Replay, Bytes;
    var js' := CommitTo(s, js, r, fault).0;
    if js' != js {
      assert js'[..|js|] == js;
    }
  }

  /** Request identities are unique in any journal replay accepts. */
  lemma {:induction false} RequestsAreUnique(session: Id, base: Doc, js: seq<Record>, i: nat, j: nat)
    requires Replay(session, base, js).Some?
    requires i < |js| && j < |js| && js[i].requestId == js[j].requestId
    ensures i == j
  {
    hide Replay, Admit;
    LastAdmitted(session, base, js);
    RequestIdsAreListed(session, base, js[..|js| - 1]);
    RequestsGrow(Replay(session, base, js[..|js| - 1]).value, js[|js| - 1], Replay(session, base, js).value);
    if i < |js| - 1 && j < |js| - 1 {
      RequestsAreUnique(session, base, js[..|js| - 1], i, j);
    }
  }

  lemma {:induction false} RequestIdsAreListed(session: Id, base: Doc, js: seq<Record>)
    requires Replay(session, base, js).Some?
    ensures forall i | 0 <= i < |js| :: js[i].requestId in Replay(session, base, js).value.requestIds
    ensures forall q | q in Replay(session, base, js).value.requestIds :: q != "" && FirstWith(js, q).Some?
  {
    hide Admit;
    if js != [] {
      var older, r := js[..|js| - 1], js[|js| - 1];
      LastAdmitted(session, base, js);
      hide Replay;
      RequestIdsAreListed(session, base, older);
      RequestsGrow(Replay(session, base, older).value, r, Replay(session, base, js).value);
    }
  }

  lemma RequestsGrow(h: HistoryState, r: Record, h': HistoryState)
    requires Admit(h, r) == Some(h')
    ensures h'.requestIds == h.requestIds + {r.requestId} && r.requestId !in h.requestIds && r.requestId != ""
  {
  }

  predicate Unused(js: seq<Record>, commitId: Id) {
    forall i | 0 <= i < |js| :: js[i].commitId != commitId
  }

  method FindCommit(js: seq<Record>, commitId: Id) returns (found: Option<nat>)
    ensures found.None? <==> Unused(js, commitId)
    ensures found.Some? ==> found.value < |js| && js[found.value].commitId == commitId
  {
    for i := 0 to |js|
      invariant forall k | 0 <= k < i :: js[k].commitId != commitId
    {
      if js[i].commitId == commitId {
        return Some(i);
      }
    }
    return None;
  }

  lemma CommitIsNew(session: Id, base: Doc, js: seq<Record>)
    requires Replay(session, base, js).Some? && js != []
    ensures Unused(js[..|js| - 1], js[|js| - 1].commitId)
  {
    var older, r := js[..|js| - 1], js[|js| - 1];
    HistoryTreeIsSound(session, base, older);
    AdmitGrows(Replay(session, base, older).value, r, Replay(session, base, js).value);
  }

  lemma {:induction false} CommitsAreUnique(session: Id, base: Doc, js: seq<Record>, i: nat, j: nat)
    requires Replay(session, base, js).Some?
    requires i < |js| && j < |js| && js[i].commitId == js[j].commitId
    ensures i == j
  {
    hide Admit;
    LastAdmitted(session, base, js);
    CommitIsNew(session, base, js);
    hide Replay;
    if i < |js| - 1 && j < |js| - 1 {
      CommitsAreUnique(session, base, js[..|js| - 1], i, j);
    }
  }

  /** A commit acknowledged under its own identity was appended exactly when that identity was unused. */
  lemma NewCommitsAreUnused(s: Shelf, js: seq<Record>, r: Record, fault: Fault)
    ensures
      var (js', reply) := CommitTo(s, js, r, fault);
      && (js' == js || js' == js + [r])
      && (js' == js + [r] ==> Unused(js, r.commitId))
      && (reply.Ok? && reply.value.commitId == r.commitId ==> (js' == js + [r] <==> Unused(js, r.commitId)))
  {
    var (js', reply) := CommitTo(s, js, r, fault);
    if js' == js + [r] && js' != js {
      CommitIsNew(s.session, s.base, js');
      assert js'[..|js|] == js;
    } else if reply.Ok? {
      assert js[reply.value.sequence - 1].commitId == reply.value.commitId;
    }
  }

  // ---- the tracked size covers the serialised journal ----

  function Joined(s: Shelf, js: seq<Record>): string {
    if js == [] then ""
    else if |js| == 1 then s.encode(js[0])
    else Joined(s, js[..|js| - 1]) + "," + s.encode(js[|js| - 1])
  }

  function JsonArray(s: Shelf, js: seq<Record>): string {
    "[" + Joined(s, js) + "]"
  }

  /** The tracked size is the length of the journal as one JSON array, and one more unless it is empty. */
  lemma {:induction false} BytesCoverJson(s: Shelf, js: seq<Record>)
    ensures Bytes(s, js) == |JsonArray(s, js)| + (if js == [] then 0 else 1)
  {
    if |js| > 1 {
      BytesCoverJson(s, js[..|js| - 1]);
    } else if |js| == 1 {
      assert js[..0] == [];
      assert Bytes(s, js[..0]) == 2;
    }
  }

  // ---- outcomes in the record they answer for ----

  function Dressed(r: Record, input: string, response: CanonicalResponse): Record {
    r.(effects := r.effects.(outcome := Some(Outcome(input, r.fingerprint, response))))
  }

  /** Storing an outcome changes nothing that replay derives, once it is bound to its record. */
  lemma OutcomesAreInert(h: HistoryState, r: Record, input: string, response: CanonicalResponse)
    requires r.effects.outcome.None?
    requires response.revision == r.revision && response.session == r.session
    ensures Admit(h, Dressed(r, input, response)) == Admit(h, r)
  {
    var d := Dressed(r, input, response);
    AdvanceIgnoresOutcomes(h, r, d);
    assert ValidPrepared(d, h.revision) == ValidPrepared(r, h.revision);
    assert RevisionAfter(PreviousRevision(h, r).GetOr(r.revision), d, h.head)
      == RevisionAfter(PreviousRevision(h, r).GetOr(r.revision), r, h.head);
  }

  lemma PartsIgnoreOutcomes(h: HistoryState, r: Record, d: Record)
    requires d == r.(effects := r.effects.(outcome := d.effects.outcome))
    ensures PublishDocument(h, d) == PublishDocument(h, r)
    ensures CreateBranch(h, d) == CreateBranch(h, r)
    ensures ReceiptAllowed(h, d) == ReceiptAllowed(h, r)
  {
    hide RedoTarget;
  }

  lemma AdvanceIgnoresOutcomes(h: HistoryState, r: Record, d: Record)
    requires d == r.(effects := r.effects.(outcome := d.effects.outcome))
    ensures Advance(h, d) == Advance(h, r)
  {
    hide PublishDocument, CreateBranch, ReceiptAllowed, RedoTarget, Unlist, Known, ParentOf;
    PartsIgnoreOutcomes(h, r, d);
  }

  class OutcomeStorage {
    const inner: Journal
    const requestId: Id
    const input: string
    const prepare: Record -> Result<CanonicalResponse>
    var outcome: Option<CanonicalResponse>

    constructor (inner: Journal, requestId: Id, input: string, prepare: Record -> Result<CanonicalResponse>)
      ensures this.inner == inner && this.requestId == requestId && this.input == input
      ensures this.prepare == prepare && outcome == None
    {
      this.inner, this.requestId, this.input, this.prepare, outcome := inner, requestId, input, prepare, None;
    }

    /** Hands back the stored response, but only to a caller with the same canonical input. */
    method Capture(record: Record) returns (ok: bool)
      modifies this
      ensures ok <==> record.effects.outcome.Some? && record.effects.outcome.value.input == input
      ensures outcome == if ok then Some(record.effects.outcome.value.response) else old(outcome)
    {
      ok := record.effects.outcome.Some? && record.effects.outcome.value.input == input;
      if ok {
        outcome := Some(record.effects.outcome.value.response);
      }
    }

    method Load(session: Id) returns (r: Result<seq<Record>>)
      modifies this
      ensures r.Ok? ==> session == inner.shelf.session && r.value == inner.records
      ensures session != inner.shelf.session ==> r.Err? && outcome == old(outcome)
      ensures session == inner.shelf.session ==>
        match FirstWith(inner.records, requestId)
        case None => r.Ok? && outcome == old(outcome)
        case Some(i) =>
          var kept := inner.records[i].effects.outcome;
          && (r.Ok? <==> kept.Some? && kept.value.input == input)
          && outcome == if r.Ok? then Some(kept.value.response) else old(outcome)
    {
      r := inner.Load(session);
      if r.Err? {
        return;
      }
      for i := 0 to |r.value|
        invariant FirstWith(r.value[..i], requestId).None?
        invariant outcome == old(outcome)
      {
        assert r.value[..i + 1][..i] == r.value[..i];
        if r.value[i].requestId == requestId {
          FirstIsFirst(r.value, requestId, i);
          var ok := Capture(r.value[i]);
          if !ok {
            r := Err;
          }
          return;
        }
      }
      assert r.value[..|r.value|] == r.value;
    }

    /**
      A commit that succeeds under an unused commit identity has appended the caller's record with the
      response inside it, and that response is what the caller holds. Under a used one the journal is
      as it was, and the response need not be the stored one. A failure leaves the caller's copy alone.
     */
    method Commit(prepared: Record, fault: Fault) returns (r: Result<Durable>)
      requires inner.Valid() && prepared.session == inner.shelf.session
      modifies this, inner
      ensures inner.Valid()
      ensures r.Ok? ==>
        prepare(prepared).Ok? && outcome == Some(prepare(prepared).value) && r.value.commitId == prepared.commitId
      ensures r.Ok? && Unused(old(inner.records), prepared.commitId) ==>
        var stored := Outcome(input, prepared.fingerprint, outcome.value);
        inner.records == old(inner.records) + [prepared.(effects := prepared.effects.(outcome := Some(stored)))]
      ensures r.Ok? && !Unused(old(inner.records), prepared.commitId) ==> inner.records == old(inner.records)
      ensures r.Err? ==> outcome == old(outcome)
      ensures prepare(prepared).Err? ==> r.Err? && inner.records == old(inner.records)
      ensures prepare(prepared).Ok? ==>
        var record := Dressed(prepared, input, prepare(prepared).value);
        var (after, reply) := CommitTo(inner.shelf, old(inner.records), record, fault);
        inner.records == after && r == if reply.Ok? && reply.value.commitId != prepared.commitId then Err else reply
      ensures inner.records == old(inner.records) ||
        (prepare(prepared).Ok?
          && inner.records == old(inner.records) + [Dressed(prepared, input, prepare(prepared).value)])
    {
      var response := prepare(prepared);
      if response.Err? {
        return Err;
      }
      var record := Dressed(prepared, input, response.value);
      NewCommitsAreUnused(inner.shelf, inner.records, record, fault);
      r := inner.Commit(record, fault);
      if r.Err? {
        return;
      }
      if r.value.commitId != record.commitId {
        return Err;
      }
      outcome := Some(response.value);
    }

    method Reconcile(session: Id, request: Id, token: Print) returns (r: Result<Option<Durable>>)
      requires inner.Valid()
      modifies this
      ensures r.Ok? && r.value.Some? ==>
        exists i :: 0 <= i < |inner.records|
          && inner.records[i].requestId == request && inner.records[i].fingerprint == token
          && r.value.value == Durable(inner.records[i].commitId, i + 1)
          && inner.records[i].effects.outcome.Some? && inner.records[i].effects.outcome.value.input == input
          && outcome == Some(inner.records[i].effects.outcome.value.response)
      ensures !(r.Ok? && r.value.Some?) ==> outcome == old(outcome)
      ensures session != inner.shelf.session ==> r.Err?
      ensures session == inner.shelf.session ==>
        match FirstWith(inner.records, request)
        case None => r == Ok(None)
        case Some(i) =>
          var kept := inner.records[i];
          r.Ok? <==>
            kept.fingerprint == token && kept.effects.outcome.Some? && kept.effects.outcome.value.input == input
    {
      r := inner.Reconcile(session, request, token);
      if r.Err? || r.value.None? {
        return;
      }
      var records := inner.Load(session);
      var found := FindCommit(records.value, r.value.value.commitId);
      if found.None? {
        return Err;
      }
      CommitsAreUnique(inner.shelf.session, inner.shelf.base, inner.records, found.value, r.value.value.sequence - 1);
      var ok := Capture(records.value[found.value]);
      if !ok {
        return Err;
      }
    }
  }
}
