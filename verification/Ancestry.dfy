/**
  What every replayable journal is like: document ancestry is a tree whose walks end, each head
  names a document, revisions do not come back, and the staged catalog follows stream order.
  The reference definitions here recurse on the journal itself and know nothing of the replay state.
 */
module Ancestry {
  import opened Wrappers
  import opened Documents
  import opened Writes
  import opened Preparation
  import opened History

  // ---- positions ----

  /** One more than the position of the last record with this commit id; 0 if there is none. */
  function Rank(js: seq<Record>, id: Id): (n: nat)
    ensures n <= |js|
    ensures n > 0 ==> js[n - 1].commitId == id
    ensures n == 0 ==> forall i | 0 <= i < |js| :: js[i].commitId != id
  {
    if js == [] then 0
    else if js[|js| - 1].commitId == id then |js|
    else Rank(js[..|js| - 1], id)
  }

  lemma RankOfOlder(js: seq<Record>, r: Record, id: Id)
    requires r.commitId != id
    ensures Rank(js + [r], id) == Rank(js, id)
  {
    assert (js + [r])[..|js|] == js;
  }

  lemma RankOfNewest(js: seq<Record>, r: Record)
    ensures Rank(js + [r], r.commitId) == |js| + 1
  {
  }

  /** Every reference of the history state names the base or a document commit. */
  ghost predicate Closed(h: HistoryState) {
    && h.branch in h.branches
    && Known(h, h.head)
    && (forall b | b in h.branches :: Known(h, h.branches[b]))
    && (forall c | c in h.checkpoints :: Known(h, h.checkpoints[c].head))
    && (forall id | id in h.parents :: Known(h, h.parents[id]))
    && h.parents.Keys <= h.commitIds
  }

  ghost predicate ParentIsOlder(js: seq<Record>, h: HistoryState, id: Id)
    requires id in h.parents
  {
    && Rank(js, id) > 0
    && Publishes(js[Rank(js, id) - 1])
    && js[Rank(js, id) - 1].historyParent == h.parents[id]
    && (h.parents[id].Some? ==> Rank(js, h.parents[id].value) < Rank(js, id))
  }

  /** The parent map is the journal's: each entry is a publishing record, its parent an earlier one. */
  ghost predicate Ranked(js: seq<Record>, h: HistoryState) {
    && (forall id | id in h.parents :: ParentIsOlder(js, h, id))
    && (forall id :: id in h.commitIds <==> Rank(js, id) > 0)
    && (h.tip == if js == [] then None else Some(js[|js| - 1].commitId))
  }

  ghost predicate TreeSound(js: seq<Record>, h: HistoryState) {
    Closed(h) && Ranked(js, h)
  }

  /** How one record moves the tree: a publishing record adds itself under the head, no other adds. */
  ghost predicate Grows(h: HistoryState, r: Record, h': HistoryState) {
    && r.commitId !in h.commitIds
    && h'.commitIds == h.commitIds + {r.commitId}
    && h'.tip == Some(r.commitId)
    && (Publishes(r) ==> r.historyParent == h.head && h'.parents == h.parents[r.commitId := h.head])
    && (!Publishes(r) ==> h'.parents == h.parents)
  }

  lemma PublishKeepsClosed(h: HistoryState, r: Record, moved: HistoryState)
    requires Closed(h) && r.commitId !in h.commitIds
    requires PublishDocument(h, r) == Some(moved)
    ensures Closed(moved.(commitIds := h.commitIds + {r.commitId}))
    ensures Publishes(r) ==> r.historyParent == h.head && moved.parents == h.parents[r.commitId := h.head]
    ensures !Publishes(r) ==> moved == h
  {
  }

  lemma NewBranchKeepsHeads(h: HistoryState, r: Record, moved: HistoryState)
    requires Closed(h) && CreateBranch(h, r) == Some(moved)
    ensures moved.parents == h.parents && moved.checkpoints == h.checkpoints
    ensures moved.head == h.head && moved.branch == h.branch && moved.branch in moved.branches
    ensures forall b | b in moved.branches :: Known(h, moved.branches[b])
  {
  }

  lemma UnlistingKeepsHeads(h: HistoryState, change: Option<Id>, moved: HistoryState)
    requires Unlist(h, change) == Some(moved)
    ensures moved.parents == h.parents && moved.checkpoints == h.checkpoints
    ensures moved.head == h.head && moved.branch == h.branch && moved.branches == h.branches
  {
  }

  lemma ControlKeepsParents(h: HistoryState, r: Record, moved: HistoryState)
    requires Advance(h, r) == Some(moved) && !CarriesDocument(r.transition)
    ensures moved.parents == h.parents
  {
    hide RedoTarget, ReceiptAllowed, PublishDocument, Known, ParentOf;
  }

  lemma ControlKeepsHeads(h: HistoryState, r: Record, moved: HistoryState)
    requires Closed(h) && !CarriesDocument(r.transition)
    requires Advance(h, r) == Some(moved)
    ensures Known(h, moved.head) && moved.branch in moved.branches
  {
    if r.transition.BranchCreate? {
      NewBranchKeepsHeads(h, r, moved);
    } else if r.transition.CatalogDiscard? {
      UnlistingKeepsHeads(h, r.effects.discard, moved);
    }
    hide RedoTarget, ReceiptAllowed, PublishDocument, CreateBranch, Unlist;
  }

  lemma ControlKeepsBranches(h: HistoryState, r: Record, moved: HistoryState)
    requires Closed(h) && !CarriesDocument(r.transition)
    requires Advance(h, r) == Some(moved)
    ensures forall b | b in moved.branches :: Known(h, moved.branches[b])
  {
    if r.transition.BranchCreate? {
      NewBranchKeepsHeads(h, r, moved);
    } else if r.transition.CatalogDiscard? {
      UnlistingKeepsHeads(h, r.effects.discard, moved);
    }
    hide RedoTarget, ReceiptAllowed, PublishDocument, CreateBranch, Unlist, ParentOf;
  }

  lemma ControlKeepsCheckpoints(h: HistoryState, r: Record, moved: HistoryState)
    requires Closed(h) && !CarriesDocument(r.transition)
    requires Advance(h, r) == Some(moved)
    ensures forall c | c in moved.checkpoints :: Known(h, moved.checkpoints[c].head)
  {
    if r.transition.BranchCreate? {
      NewBranchKeepsHeads(h, r, moved);
    } else if r.transition.CatalogDiscard? {
      UnlistingKeepsHeads(h, r.effects.discard, moved);
    }
    hide RedoTarget, ReceiptAllowed, PublishDocument, CreateBranch, Unlist;
  }

  lemma AdvanceKeepsClosed(h: HistoryState, r: Record, moved: HistoryState)
    requires Closed(h) && r.commitId !in h.commitIds
    requires Publishes(r) ==> CarriesDocument(r.transition)
    requires Advance(h, r) == Some(moved)
    ensures Closed(moved.(commitIds := h.commitIds + {r.commitId}))
    ensures Publishes(r) ==> r.historyParent == h.head && moved.parents == h.parents[r.commitId := h.head]
    ensures !Publishes(r) ==> moved.parents == h.parents
  {
    if CarriesDocument(r.transition) {
      PublishKeepsClosed(h, r, PublishDocument(h, r).value);
    } else {
      ControlKeepsParents(h, r, moved);
      ControlKeepsHeads(h, r, moved);
      ControlKeepsBranches(h, r, moved);
      ControlKeepsCheckpoints(h, r, moved);
    }
  }

  lemma AdmitGrows(h: HistoryState, r: Record, h': HistoryState)
    requires Closed(h)
    requires Admit(h, r) == Some(h')
    ensures Closed(h') && Grows(h, r, h')
  {
    AdvanceKeepsClosed(h, r, Advance(h, r).value);
  }

  lemma GrowthKeepsRanks(js: seq<Record>, h: HistoryState, r: Record, h': HistoryState)
    requires TreeSound(js, h) && Grows(h, r, h')
    ensures Ranked(js + [r], h')
  {
    var js' := js + [r];
    RankOfNewest(js, r);
    hide Rank;
    forall id | id != r.commitId ensures Rank(js', id) == Rank(js, id) {
      RankOfOlder(js, r, id);
    }
    forall id | id in h'.parents ensures ParentIsOlder(js', h', id) {
      if id != r.commitId {
        assert ParentIsOlder(js, h, id);
      }
    }
  }

  lemma {:induction false} HistoryTreeIsSound(session: Id, base: Doc, js: seq<Record>)
    requires Replay(session, base, js).Some?
    ensures TreeSound(js, Replay(session, base, js).value)
  {
    hide Admit;
    if js != [] {
      var older, r := js[..|js| - 1], js[|js| - 1];
      LastAdmitted(session, base, js);
      HistoryTreeIsSound(session, base, older);
      hide Replay;
      AdmitGrows(Replay(session, base, older).value, r, Replay(session, base, js).value);
      GrowthKeepsRanks(older, Replay(session, base, older).value, r, Replay(session, base, js).value);
      assert older + [r] == js;
    }
  }

  // ---- walks end ----

  ghost predicate AllYounger(js: seq<Record>, seen: set<Id>, id: Id) {
    forall s | s in seen :: Rank(js, s) > Rank(js, id)
  }

  /** Neither walk ever reports a cycle or an unknown commit. */
  lemma {:induction false} RedoWalkEnds(js: seq<Record>, h: HistoryState, head: Option<Id>, cursor: Id, seen: set<Id>)
    requires TreeSound(js, h) && cursor in h.parents && AllYounger(js, seen, cursor)
    ensures RedoWalk(h.parents, head, cursor, seen).Ok?
    decreases Rank(js, cursor)
  {
    assert ParentIsOlder(js, h, cursor);
    if h.parents[cursor] != head && h.parents[cursor].Some? {
      RedoWalkEnds(js, h, head, h.parents[cursor].value, seen + {cursor});
    }
  }

  lemma {:induction false} AncestorsEnd(js: seq<Record>, h: HistoryState, cursor: Option<Id>, seen: set<Id>)
    requires TreeSound(js, h) && Known(h, cursor)
    requires cursor.Some? ==> AllYounger(js, seen, cursor.value)
    ensures Ancestors(h.parents, cursor, seen) == Ok(Lineage(js, cursor))
    decreases if cursor.Some? then Rank(js, cursor.value) else 0
  {
    if cursor.Some? {
      assert ParentIsOlder(js, h, cursor.value);
      AncestorsEnd(js, h, h.parents[cursor.value], seen + {cursor.value});
      LineageUnfolds(js, h, cursor.value);
    }
  }

  /** The ancestry of a commit read off the journal alone, root first. */
  function Lineage(js: seq<Record>, head: Option<Id>): seq<Id> {
    if head.None? || js == [] then []
    else
      var r := js[|js| - 1];
      if r.commitId == head.value && Publishes(r) then Lineage(js[..|js| - 1], r.historyParent) + [r.commitId]
      else Lineage(js[..|js| - 1], head)
  }

  lemma {:induction false} LineageOfOlder(js: seq<Record>, n: nat, head: Option<Id>)
    requires n <= |js|
    requires head.Some? ==> Rank(js, head.value) <= n
    ensures Lineage(js, head) == Lineage(js[..n], head)
    ensures head.Some? ==> Rank(js[..n], head.value) == Rank(js, head.value)
  {
    if n < |js| && head.Some? {
      var older := js[..|js| - 1];
      LineageOfOlder(older, n, head);
      assert older[..n] == js[..n];
    } else if n == |js| {
      assert js[..n] == js;
    }
  }

  lemma LineageUnfolds(js: seq<Record>, h: HistoryState, id: Id)
    requires TreeSound(js, h) && id in h.parents
    ensures Lineage(js, Some(id)) == Lineage(js, h.parents[id]) + [id]
  {
    assert ParentIsOlder(js, h, id);
    hide TreeSound, Rank, Lineage;
    RankedUnfolds(js, id, h.parents[id]);
  }

  lemma RankedUnfolds(js: seq<Record>, id: Id, parent: Option<Id>)
    requires
      var n := Rank(js, id);
      && n > 0 && Publishes(js[n - 1]) && js[n - 1].historyParent == parent
      && (parent.Some? ==> Rank(js, parent.value) < n)
    ensures Lineage(js, Some(id)) == Lineage(js, parent) + [id]
  {
    var n := Rank(js, id);
    hide Rank, Publishes, Lineage;
    LineageOfOlder(js, n, Some(id));
    assert js[..n][..n - 1] == js[..n - 1] && js[..n][n - 1] == js[n - 1];
    LineageOfLast(js[..n]);
    assert Lineage(js, Some(id)) == Lineage(js[..n - 1], parent) + [id];
    LineageOfOlder(js, n - 1, parent);
  }

  lemma LineageOfLast(js: seq<Record>)
    requires js != [] && Publishes(js[|js| - 1])
    ensures
      var r := js[|js| - 1];
      Lineage(js, Some(r.commitId)) == Lineage(js[..|js| - 1], r.historyParent) + [r.commitId]
  {
  }

  // ---- the document at a head ----

  /** The fold of publications along a head's ancestry, as recovery applies them. */
  function DocAt(js: seq<Record>, base: Doc, head: Option<Id>): Option<Doc> {
    if head.None? then Some(base)
    else if js == [] then None
    else
      var r := js[|js| - 1];
      if r.commitId == head.value && Publishes(r) then
        var before :- DocAt(js[..|js| - 1], base, r.historyParent);
        Publish(before, r.effects.prepared.value.publication, false)
      else DocAt(js[..|js| - 1], base, head)
  }

  lemma {:induction false} DocAtOlder(js: seq<Record>, base: Doc, n: nat, head: Option<Id>)
    requires n <= |js|
    requires head.Some? ==> Rank(js, head.value) <= n
    ensures DocAt(js, base, head) == DocAt(js[..n], base, head)
  {
    if n < |js| && head.Some? {
      var older := js[..|js| - 1];
      DocAtOlder(older, base, n, head);
      assert older[..n] == js[..n];
    } else if n == |js| {
      assert js[..n] == js;
    }
  }

  /** Appending a record leaves the document at every earlier head alone: history is never rewritten. */
  lemma HeadsKeepTheirDocument(js: seq<Record>, base: Doc, r: Record, head: Option<Id>)
    requires head.Some? ==> head.value != r.commitId
    ensures DocAt(js + [r], base, head) == DocAt(js, base, head)
  {
    assert (js + [r])[..|js|] == js;
  }

  function PublicationOf(js: seq<Record>, id: Id): Publication {
    if Rank(js, id) > 0 && Publishes(js[Rank(js, id) - 1]) then js[Rank(js, id) - 1].effects.prepared.value.publication
    else NoPublication
  }

  lemma DocAtUnfolds(js: seq<Record>, base: Doc, h: HistoryState, id: Id)
    requires TreeSound(js, h) && id in h.parents
    ensures
      var before := DocAt(js, base, h.parents[id]);
      DocAt(js, base, Some(id)) == if before.Some? then Publish(before.value, PublicationOf(js, id), false) else None
  {
    hide Publish, Lineage;
    assert ParentIsOlder(js, h, id);
    var n := Rank(js, id);
    hide Rank, Publishes, DocAt;
    DocAtOlder(js, base, n, Some(id));
    assert js[..n][..n - 1] == js[..n - 1] && js[..n][n - 1] == js[n - 1];
    DocAtLast(js[..n], base);
    DocAtOlder(js, base, n - 1, h.parents[id]);
  }

  lemma DocAtLast(js: seq<Record>, base: Doc)
    requires js != [] && Publishes(js[|js| - 1])
    ensures
      var r := js[|js| - 1];
      var before := DocAt(js[..|js| - 1], base, r.historyParent);
      DocAt(js, base, Some(r.commitId))
        == if before.Some? then Publish(before.value, r.effects.prepared.value.publication, false) else None
  {
  }

  /** Every document commit can be rebuilt from the base; this is what recovery insists on. */
  predicate Rebuildable(js: seq<Record>, base: Doc) {
    forall i | 0 <= i < |js| && Publishes(js[i]) :: DocAt(js[..i + 1], base, Some(js[i].commitId)).Some?
  }

  lemma RebuildableHeads(js: seq<Record>, base: Doc, h: HistoryState, head: Option<Id>)
    requires TreeSound(js, h) && Rebuildable(js, base) && Known(h, head)
    ensures DocAt(js, base, head).Some?
  {
    if head.Some? {
      assert ParentIsOlder(js, h, head.value);
      DocAtOlder(js, base, Rank(js, head.value), head);
    }
  }

  lemma RebuildableExtends(js: seq<Record>, base: Doc, r: Record)
    requires Rebuildable(js, base)
    requires Publishes(r) ==> DocAt(js + [r], base, Some(r.commitId)).Some?
    ensures Rebuildable(js + [r], base)
  {
    var js' := js + [r];
    forall i | 0 <= i < |js'| && Publishes(js'[i]) ensures DocAt(js'[..i + 1], base, Some(js'[i].commitId)).Some? {
      if i < |js| {
        assert js'[..i + 1] == js[..i + 1];
      } else {
        assert js'[..i + 1] == js';
      }
    }
  }

  // ---- the staged catalog ----

  /** The catalog as the linear stream leaves it, whatever branch is checked out. */
  function StagedBy(js: seq<Record>): map<Id, Bundle> {
    if js == [] then map[] else StagedAfter(StagedBy(js[..|js| - 1]), js[|js| - 1])
  }

  function StagedAfter(staged: map<Id, Bundle>, r: Record): map<Id, Bundle> {
    match r.transition
    case CatalogStage => if r.effects.prepared.Some? && r.effects.prepared.value.staged.Some?
      then staged[r.effects.prepared.value.staged.value.0 := r.effects.prepared.value.staged.value.1] else staged
    case CatalogDiscard => if r.effects.discard.Some? then staged - {r.effects.discard.value} else staged
    case StageApply => if r.effects.prepared.Some? && r.effects.prepared.value.consume.Some?
      then staged - {r.effects.prepared.value.consume.value} else staged
    case _ => staged
  }

  lemma CatalogStep(h: HistoryState, r: Record, h': HistoryState, staged: map<Id, Bundle>)
    requires Admit(h, r) == Some(h') && staged.Keys == h.catalog
    ensures StagedAfter(staged, r).Keys == h'.catalog
  {
    CatalogAdvance(h, r, Advance(h, r).value, staged);
    hide Advance, ValidPrepared, RevisionAfter, StagedAfter;
  }

  lemma PartsKeepCounts(h: HistoryState, r: Record)
    ensures PublishDocument(h, r).Some? ==>
      PublishDocument(h, r).value.generation == h.generation && PublishDocument(h, r).value.catalog == h.catalog
    ensures CreateBranch(h, r).Some? ==>
      CreateBranch(h, r).value.generation == h.generation && CreateBranch(h, r).value.catalog == h.catalog
  {
  }

  lemma CatalogAdvance(h: HistoryState, r: Record, moved: HistoryState, staged: map<Id, Bundle>)
    requires Advance(h, r) == Some(moved) && staged.Keys == h.catalog && ValidPrepared(r, h.revision)
    ensures StagedAfter(staged, r).Keys == moved.catalog
  {
    PartsKeepCounts(h, r);
    hide RedoTarget, ReceiptAllowed, Known, ParentOf, PublishDocument, CreateBranch;
  }

  lemma {:induction false} CatalogFollowsStream(session: Id, base: Doc, js: seq<Record>)
    requires Replay(session, base, js).Some?
    ensures StagedBy(js).Keys == Replay(session, base, js).value.catalog
  {
    if js != [] {
      var older := js[..|js| - 1];
      CatalogFollowsStream(session, base, older);
      CatalogStep(Replay(session, base, older).value, js[|js| - 1], Replay(session, base, js).value, StagedBy(older));
    }
  }

  // ---- revisions never come back ----

  ghost predicate NoLater(a: Revision, b: Revision) {
    a.epoch == b.epoch && a.document <= b.document && a.state <= b.state
  }

  lemma RevisionStep(h: HistoryState, r: Record, h': HistoryState)
    requires Admit(h, r) == Some(h') && h.revision.Some?
    ensures NoLater(h.revision.value, r.revision)
    ensures h.revision.value.state == r.revision.state ==> r.revision == h.revision.value && h'.head == h.head
  {
    if CatalogOnly(r) {
      assert Advance(h, r).value.head == h.head;
    }
  }

  /** The last record's revision against an earlier one's. */
  lemma {:induction false} LastRevisionIsLatest(session: Id, base: Doc, js: seq<Record>, i: nat)
    requires Replay(session, base, js).Some?
    requires 1 <= i <= |js|
    ensures NoLater(js[i - 1].revision, js[|js| - 1].revision)
    ensures js[i - 1].revision.state == js[|js| - 1].revision.state ==>
      && js[i - 1].revision == js[|js| - 1].revision
      && js[i - 1].head == js[|js| - 1].head
      && DocAt(js[..i], base, js[i - 1].head) == DocAt(js, base, js[|js| - 1].head)
  {
    hide Admit, Publish;
    if i == |js| {
      assert js[..i] == js;
    } else {
      var older, r := js[..|js| - 1], js[|js| - 1];
      LastRevisionIsLatest(session, base, older, i);
      assert older[..i] == js[..i] && older + [r] == js;
      var h, h' := Replay(session, base, older).value, Replay(session, base, js).value;
      LastRecordStands(session, base, older);
      LastRecordStands(session, base, js);
      RevisionStep(h, r, h');
      HistoryTreeIsSound(session, base, older);
      AdmitGrows(h, r, h');
      HeadsKeepTheirDocument(older, base, r, h.head);
    }
  }

  /**
    No ABA: along the stream revisions only move up, and two prefixes that end in the same revision
    have the same head, so they name the same document.
   */
  lemma {:induction false} RevisionsNeverComeBack(session: Id, base: Doc, js: seq<Record>, i: nat, j: nat)
    requires Replay(session, base, js).Some?
    requires 1 <= i <= j <= |js|
    ensures NoLater(js[i - 1].revision, js[j - 1].revision)
    ensures js[i - 1].revision.state == js[j - 1].revision.state ==>
      && js[i - 1].revision == js[j - 1].revision
      && js[i - 1].head == js[j - 1].head
      && DocAt(js[..i], base, js[i - 1].head) == DocAt(js[..j], base, js[j - 1].head)
  {
    if j == |js| {
      LastRevisionIsLatest(session, base, js, i);
      assert js[..j] == js;
    } else {
      var older := js[..|js| - 1];
      RevisionsNeverComeBack(session, base, older, i, j);
      assert older[..i] == js[..i] && older[..j] == js[..j];
    }
  }

  /** The state after replay is the one the last record claims. */
  lemma LastRecordStands(session: Id, base: Doc, js: seq<Record>)
    requires Replay(session, base, js).Some? && js != []
    ensures
      var h, last := Replay(session, base, js).value, js[|js| - 1];
      && h.session == session && h.base == base
      && h.head == last.head && h.branch == last.branch && h.branches == last.branches
      && h.generation == last.generation && h.revision == Some(last.revision) && h.tip == Some(last.commitId)
  {
  }
}
