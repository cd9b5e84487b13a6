/**
  Rebuilding documents from the journal with the loops the owner uses: a walk up the ancestry of a
  head, and a single pass in stream order that applies only the active commits.
 */
module Recovery {
  import opened Wrappers
  import opened Documents
  import opened Writes
  import opened Preparation
  import opened History
  import opened Ancestry
  import opened Journals
  import opened Protocol
  import opened Soundness

  function RecordPublication(r: Record): Publication {
    if r.effects.prepared.Some? then r.effects.prepared.value.publication else NoPublication
  }

  function Bind(d: Option<Doc>, r: Record): Option<Doc> {
    if d.None? then None else Publish(d.value, RecordPublication(r), false)
  }

  /** Publications applied from the last of the list to its first. */
  function ApplyBack(d: Option<Doc>, newestFirst: seq<Record>): Option<Doc>
    decreases |newestFirst|
  {
    if newestFirst == [] then d
    else ApplyBack(Bind(d, newestFirst[|newestFirst| - 1]), newestFirst[..|newestFirst| - 1])
  }

  lemma {:induction false} ApplyBackOfNone(newestFirst: seq<Record>)
    ensures ApplyBack(None, newestFirst) == None
  {
    if newestFirst != [] {
      ApplyBackOfNone(newestFirst[..|newestFirst| - 1]);
    }
  }

  lemma RankIsPosition(session: Id, base: Doc, js: seq<Record>, i: nat)
    requires Replay(session, base, js).Some? && i < |js|
    ensures Rank(js, js[i].commitId) == i + 1
  {
    CommitsAreUnique(session, base, js, Rank(js, js[i].commitId) - 1, i);
  }

  ghost predicate ParentIsPositioned(js: seq<Record>, i: nat)
    requires i < |js|
  {
    && (!Publishes(js[i]) ==> js[i].historyParent.None?)
    && (js[i].historyParent.Some? ==>
          var parent := js[i].historyParent.value;
          0 < Rank(js, parent) <= i && Publishes(js[Rank(js, parent) - 1]))
  }

  lemma LastParentIsPositioned(session: Id, base: Doc, js: seq<Record>)
    requires Replay(session, base, js).Some? && js != [] && CarriesDocument(js[|js| - 1].transition)
    ensures ParentIsPositioned(js, |js| - 1)
  {
    hide Admit;
    var older, r := js[..|js| - 1], js[|js| - 1];
    HistoryTreeIsSound(session, base, older);
    var h := Replay(session, base, older).value;
    ParentOfCarrier(h, r, Replay(session, base, js).value);
    if r.historyParent.Some? {
      assert ParentIsOlder(older, h, r.historyParent.value);
      RankIsPosition(session, base, js, Rank(older, r.historyParent.value) - 1);
    }
  }

  lemma {:induction false} ParentsArePositioned(session: Id, base: Doc, js: seq<Record>, i: nat)
    requires Replay(session, base, js).Some? && i < |js| && CarriesDocument(js[i].transition)
    ensures ParentIsPositioned(js, i)
  {
    hide Admit;
    if i < |js| - 1 {
      var older := js[..|js| - 1];
      ParentsArePositioned(session, base, older, i);
      if js[i].historyParent.Some? {
        RankIsPosition(session, base, js, Rank(older, js[i].historyParent.value) - 1);
      }
    } else {
      LastParentIsPositioned(session, base, js);
    }
  }

  lemma ParentOfCarrier(h: HistoryState, r: Record, h': HistoryState)
    requires Admit(h, r) == Some(h') && CarriesDocument(r.transition)
    ensures if Publishes(r) then r.historyParent == h.head else r.historyParent.None?
  {
  }

  /** One step up the ancestry. */
  lemma HeadDocSteps(session: Id, base: Doc, js: seq<Record>, i: nat)
    requires Replay(session, base, js).Some? && i < |js| && CarriesDocument(js[i].transition)
    ensures HeadDoc(js, base, Some(js[i].commitId)) == Bind(HeadDoc(js, base, js[i].historyParent), js[i])
    ensures js[i].historyParent.Some? ==> Rank(js, js[i].historyParent.value) <= i
  {
    hide Replay, Rank, DocAt;
    RankIsPosition(session, base, js, i);
    ParentsArePositioned(session, base, js, i);
    var h := Replay(session, base, js).value;
    HistoryTreeIsSound(session, base, js);
    if Publishes(js[i]) {
      PublishersAreKnown(session, base, js, i);
      DocAtUnfolds(js, base, h, js[i].commitId);
      assert ParentIsOlder(js, h, js[i].commitId);
      HeadDocOfKnown(js, base, h, js[i].historyParent);
    }
  }

  lemma {:induction false} PublishersAreKnown(session: Id, base: Doc, js: seq<Record>, i: nat)
    requires Replay(session, base, js).Some? && i < |js| && Publishes(js[i])
    ensures js[i].commitId in Replay(session, base, js).value.parents
  {
    hide Admit;
    var older := js[..|js| - 1];
    LastAdmitted(session, base, js);
    HistoryTreeIsSound(session, base, older);
    hide Replay, TreeSound;
    AdmitGrows(Replay(session, base, older).value, js[|js| - 1], Replay(session, base, js).value);
    if i < |older| {
      PublishersAreKnown(session, base, older, i);
    }
  }

  method MaterializeHead(session: Id, base: Doc, js: seq<Record>, target: Option<Id>) returns (doc: Option<Doc>)
    requires Replay(session, base, js).Some?
    ensures doc == HeadDoc(js, base, target)
  {
    hide Replay, Publish, DocAt, Rank;
    var ancestry: seq<Record>, cursor, seen: set<Id> := [], target, {};
    while cursor.Some?
      invariant HeadDoc(js, base, target) == ApplyBack(HeadDoc(js, base, cursor), ancestry)
      invariant cursor.Some? ==> AllYounger(js, seen, cursor.value)
      decreases if cursor.Some? then Rank(js, cursor.value) + 1 else 0
    {
      if cursor.value in seen {
        return None;
      }
      seen := seen + {cursor.value};
      var found := FindCommit(js, cursor.value);
      if found.None? || !CarriesDocument(js[found.value].transition) {
        if found.Some? {
          RankIsPosition(session, base, js, found.value);
        }
        ApplyBackOfNone(ancestry);
        return None;
      }
      var record := js[found.value];
      RankIsPosition(session, base, js, found.value);
      HeadDocSteps(session, base, js, found.value);
      assert (ancestry + [record])[..|ancestry|] == ancestry;
      ancestry := ancestry + [record];
      cursor := record.historyParent;
    }
    var rebuilt, n := base, |ancestry|;
    assert ancestry[..n] == ancestry;
    while n > 0
      invariant 0 <= n <= |ancestry|
      invariant HeadDoc(js, base, target) == ApplyBack(Some(rebuilt), ancestry[..n])
    {
      assert ancestry[..n][..n - 1] == ancestry[..n - 1];
      n := n - 1;
      var next := Publish(rebuilt, RecordPublication(ancestry[n]), false);
      if next.None? {
        ApplyBackOfNone(ancestry[..n]);
        return None;
      }
      rebuilt := next.value;
    }
    return Some(rebuilt);
  }

  // ---- the single pass in stream order ----

  /** Publications of the active commits, applied in the order of the stream. */
  function StreamFold(js: seq<Record>, base: Doc, active: set<Id>): Option<Doc> {
    if js == [] then Some(base)
    else
      var before, r := StreamFold(js[..|js| - 1], base, active), js[|js| - 1];
      if r.commitId in active then Bind(before, r) else before
  }

  lemma {:induction false} StreamFoldReadsOwnIds(js: seq<Record>, base: Doc, a: set<Id>, b: set<Id>)
    requires forall i | 0 <= i < |js| :: js[i].commitId in a <==> js[i].commitId in b
    ensures StreamFold(js, base, a) == StreamFold(js, base, b)
  {
    if js != [] {
      StreamFoldReadsOwnIds(js[..|js| - 1], base, a, b);
    }
  }

  lemma {:induction false} LineageIsInJournal(js: seq<Record>, head: Option<Id>)
    ensures forall x | x in Lineage(js, head) :: Rank(js, x) > 0
  {
    if head.Some? && js != [] {
      var older, r := js[..|js| - 1], js[|js| - 1];
      LineageIsInJournal(older, r.historyParent);
      LineageIsInJournal(older, head);
      assert older + [r] == js;
    }
  }

  /** Stream order serves: applying the active commits as they come is folding along the ancestry. */
  lemma {:induction false} StreamOrderIsAncestryOrder(session: Id, base: Doc, js: seq<Record>, head: Option<Id>)
    requires Replay(session, base, js).Some?
    requires head.Some? ==> head.value in Replay(session, base, js).value.parents
    ensures StreamFold(js, base, set x | x in Lineage(js, head)) == DocAt(js, base, head)
  {
    hide Admit, Publish;
    if js == [] {
    } else if head.None? {
      StreamFoldOfNothing(js, base, set x | x in Lineage(js, head));
    } else {
      var older, r := js[..|js| - 1], js[|js| - 1];
      var h := Replay(session, base, older).value;
      HistoryTreeIsSound(session, base, older);
      AdmitGrows(h, r, Replay(session, base, js).value);
      CommitIsNew(session, base, js);
      if r.commitId == head.value {
        LineageIsInJournal(older, r.historyParent);
        StreamOrderIsAncestryOrder(session, base, older, r.historyParent);
        StreamFoldReadsOwnIds(
          older, base, set x | x in Lineage(js, head), set x | x in Lineage(older, r.historyParent));
      } else {
        LineageIsInJournal(older, head);
        StreamOrderIsAncestryOrder(session, base, older, head);
        assert Rank(older, r.commitId) == 0;
      }
    }
  }

  lemma {:induction false} StreamFoldOfNothing(js: seq<Record>, base: Doc, active: set<Id>)
    requires active == {}
    ensures StreamFold(js, base, active) == Some(base)
  {
    if js != [] {
      StreamFoldOfNothing(js[..|js| - 1], base, active);
    }
  }

  /** A head that can be rebuilt vouches for its whole lineage. */
  lemma {:induction false} LineageIsRebuildable(js: seq<Record>, base: Doc, h: HistoryState, head: Option<Id>, x: Id)
    requires TreeSound(js, h) && Known(h, head) && DocAt(js, base, head).Some? && x in Lineage(js, head)
    ensures DocAt(js, base, Some(x)).Some?
    decreases if head.Some? then Rank(js, head.value) else 0
  {
    if head.Some? && x != head.value {
      assert ParentIsOlder(js, h, head.value);
      LineageUnfolds(js, h, head.value);
      DocAtUnfolds(js, base, h, head.value);
      LineageIsRebuildable(js, base, h, h.parents[head.value], x);
    }
  }

  // ---- the catalog pass ----

  predicate CountsAsCatalog(t: Transition) {
    t.CatalogStage? || t.CatalogDiscard? || t.StageApply? || t.Checkpoint? || t.CheckpointDelete?
  }

  lemma AdvanceCountsExactly(h: HistoryState, r: Record, moved: HistoryState)
    requires Advance(h, r) == Some(moved) && ValidPrepared(r, h.revision)
    ensures moved.generation == h.generation + (if CountsAsCatalog(r.transition) then 1 else 0)
  {
    PartsKeepCounts(h, r);
    hide RedoTarget, ReceiptAllowed, Known, ParentOf, PublishDocument, CreateBranch;
  }

  lemma GenerationCounts(h: HistoryState, r: Record, h': HistoryState)
    requires Admit(h, r) == Some(h')
    ensures h'.generation == h.generation + (if CountsAsCatalog(r.transition) then 1 else 0)
  {
    AdvanceCountsExactly(h, r, Advance(h, r).value);
    hide Advance, ValidPrepared, RevisionAfter;
  }

  /** Replay's own checks make the catalog pass of recovery succeed on every record. */
  lemma CatalogPass(h: HistoryState, r: Record, h': HistoryState)
    requires Admit(h, r) == Some(h')
    ensures r.transition.CatalogStage? ==>
      r.effects.prepared.Some? && r.effects.prepared.value.staged.Some?
        && r.effects.prepared.value.staged.value.0 !in h.catalog
    ensures r.transition.CatalogDiscard? ==> r.effects.discard.Some? && r.effects.discard.value in h.catalog
    ensures r.transition.StageApply? ==>
      r.effects.prepared.Some? && r.effects.prepared.value.consume.Some?
        && r.effects.prepared.value.consume.value in h.catalog
  {
    if r.transition.StageApply? {
      assert PublishDocument(h, r).value.catalog == h.catalog;
    }
  }

  /** Everything the catalog pass meets at one record. */
  lemma CatalogAt(session: Id, base: Doc, js: seq<Record>, i: nat)
    requires Replay(session, base, js).Some? && i < |js|
    ensures Replay(session, base, js[..i]).Some? && Replay(session, base, js[..i + 1]).Some?
    ensures StagedBy(js[..i + 1]) == StagedAfter(StagedBy(js[..i]), js[i])
    ensures Replay(session, base, js[..i + 1]).value.generation
      == Replay(session, base, js[..i]).value.generation + (if CountsAsCatalog(js[i].transition) then 1 else 0)
    ensures js[i].transition.CatalogStage? ==>
      && js[i].effects.prepared.Some? && js[i].effects.prepared.value.staged.Some?
      && js[i].effects.prepared.value.staged.value.0 !in StagedBy(js[..i])
    ensures js[i].transition.CatalogDiscard? ==>
      js[i].effects.discard.Some? && js[i].effects.discard.value in StagedBy(js[..i])
    ensures js[i].transition.StageApply? ==>
      && js[i].effects.prepared.Some? && js[i].effects.prepared.value.consume.Some?
      && js[i].effects.prepared.value.consume.value in StagedBy(js[..i])
  {
    hide Admit;
    ReplayPrefix(session, base, js, i);
    ReplayPrefix(session, base, js, i + 1);
    assert js[..i + 1][..i] == js[..i];
    LastAdmitted(session, base, js[..i + 1]);
    CatalogFollowsStream(session, base, js[..i]);
    hide Replay;
    CatalogPass(Replay(session, base, js[..i]).value, js[i], Replay(session, base, js[..i + 1]).value);
    GenerationCounts(Replay(session, base, js[..i]).value, js[i], Replay(session, base, js[..i + 1]).value);
  }

  method RecoverCatalog(
    session: Id, base: Doc, js: seq<Record>) returns (ok: bool, staged: map<Id, Bundle>, generation: nat)
    requires Replay(session, base, js).Some?
    ensures ok && staged == StagedBy(js) && generation == Replay(session, base, js).value.generation
  {
    ok, staged, generation := true, map[], 0;
    assert Replay(session, base, js[..0]) == Some(Empty(session, base)) && StagedBy(js[..0]) == map[];
    hide Replay, StagedBy;
    for i := 0 to |js|
      invariant Replay(session, base, js[..i]).Some?
      invariant staged == StagedBy(js[..i]) && generation == Replay(session, base, js[..i]).value.generation
    {
      var record := js[i];
      CatalogAt(session, base, js, i);
      match record.transition
      case CatalogStage =>
        var entry := record.effects.prepared.value.staged.value;
        if entry.0 in staged {
          return false, staged, generation;
        }
        staged, generation := staged[entry.0 := entry.1], generation + 1;
      case CatalogDiscard =>
        if record.effects.discard.value !in staged {
          return false, staged, generation;
        }
        staged, generation := staged - {record.effects.discard.value}, generation + 1;
      case StageApply =>
        if record.effects.prepared.value.consume.value !in staged {
          return false, staged, generation;
        }
        staged, generation := staged - {record.effects.prepared.value.consume.value}, generation + 1;
      case Checkpoint => generation := generation + 1;
      case CheckpointDelete => generation := generation + 1;
      case _ =>
    }
    assert js[..|js|] == js;
  }

  // ---- both document passes ----

  lemma ActiveIsLineage(session: Id, base: Doc, js: seq<Record>, h: HistoryState)
    requires Replay(session, base, js) == Some(h)
    ensures Ancestors(h.parents, h.head, {}) == Ok(Lineage(js, h.head))
    ensures StreamFold(js, base, set x | x in Lineage(js, h.head)) == DocAt(js, base, h.head)
  {
    hide Replay, Admit;
    HistoryTreeIsSound(session, base, js);
    AncestorsEnd(js, h, h.head, {});
    StreamOrderIsAncestryOrder(session, base, js, h.head);
  }

  method RecoverActive(
    session: Id, base: Doc, js: seq<Record>, h: HistoryState) returns (doc: Option<Doc>, active: set<Id>)
    requires Replay(session, base, js) == Some(h)
    ensures doc == DocAt(js, base, h.head)
    ensures active == set x | x in Lineage(js, h.head)
  {
    hide Replay, Admit, Ancestors, Lineage, DocAt;
    ActiveIsLineage(session, base, js, h);
    var ancestry := AncestryOf(h.parents, h.head);
    active := set x | x in ancestry.value;
    var live := base;
    for i := 0 to |js|
      invariant StreamFold(js[..i], base, active) == Some(live)
    {
      assert js[..i + 1][..i] == js[..i];
      if js[i].commitId in active {
        var next := Publish(live, RecordPublication(js[i]), false);
        if next.None? {
          StreamFoldStops(js, base, active, i + 1);
          return None, active;
        }
        live := next.value;
      }
    }
    assert js[..|js|] == js;
    return Some(live), active;
  }

  lemma Checkable(session: Id, base: Doc, js: seq<Record>, h: HistoryState, i: nat)
    requires Replay(session, base, js) == Some(h) && i < |js| && Publishes(js[i])
    ensures HeadDoc(js, base, Some(js[i].commitId)) == DocAt(js[..i + 1], base, Some(js[i].commitId))
    ensures js[i].commitId in Lineage(js, h.head) && DocAt(js, base, h.head).Some? ==>
      DocAt(js[..i + 1], base, Some(js[i].commitId)).Some?
  {
    hide Admit;
    HistoryTreeIsSound(session, base, js);
    RankIsPosition(session, base, js, i);
    PublishersAreKnown(session, base, js, i);
    HeadDocOfKnown(js, base, h, Some(js[i].commitId));
    DocAtOlder(js, base, i + 1, Some(js[i].commitId));
    if js[i].commitId in Lineage(js, h.head) && DocAt(js, base, h.head).Some? {
      LineageIsRebuildable(js, base, h, h.head, js[i].commitId);
    }
  }

  /** The active commits in stream order, then every inactive document commit on its own. */
  method RecoverDocument(session: Id, base: Doc, js: seq<Record>, h: HistoryState) returns (doc: Option<Doc>)
    requires Replay(session, base, js) == Some(h)
    ensures doc.Some? <==> Rebuildable(js, base)
    ensures doc.Some? ==> doc == DocAt(js, base, h.head)
  {
    hide Replay, Admit;
    var live, active := RecoverActive(session, base, js, h);
    if live.None? {
      HistoryTreeIsSound(session, base, js);
      NotRebuildable(js, base, h, h.head);
      return None;
    }
    for i := 0 to |js|
      invariant forall k | 0 <= k < i && Publishes(js[k]) :: DocAt(js[..k + 1], base, Some(js[k].commitId)).Some?
    {
      if Publishes(js[i]) {
        Checkable(session, base, js, h, i);
        if js[i].commitId !in active {
          var checked := MaterializeHead(session, base, js, Some(js[i].commitId));
          if checked.None? {
            return None;
          }
        }
      }
    }
    return live;
  }

  lemma {:induction false} StreamFoldStops(js: seq<Record>, base: Doc, active: set<Id>, n: nat)
    requires n <= |js| && StreamFold(js[..n], base, active).None?
    ensures StreamFold(js, base, active).None?
  {
    if n < |js| {
      assert js[..|js| - 1][..n] == js[..n];
      StreamFoldStops(js[..|js| - 1], base, active, n);
    } else {
      assert js[..n] == js;
    }
  }

  lemma NotRebuildable(js: seq<Record>, base: Doc, h: HistoryState, head: Option<Id>)
    requires TreeSound(js, h) && Known(h, head) && DocAt(js, base, head).None?
    ensures !Rebuildable(js, base)
  {
    if Rebuildable(js, base) {
      RebuildableHeads(js, base, h, head);
    }
  }
}
