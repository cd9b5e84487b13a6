/**
  Coming back: to a revision, to a head, to a request. Same revision means same document, same head
  means same document, same request means same answer.
 */
module Revisits {
  import opened Wrappers
  import opened Documents
  import opened Writes
  import opened Preparation
  import opened History
  import opened Ancestry
  import opened Journals
  import opened Protocol
  import opened Soundness
  import opened Runs
  import opened Guarantees

  // ---- the head determines the document ----

  lemma {:induction false} RankStays(session: Id, base: Doc, js: seq<Record>, js': seq<Record>, id: Id)
    requires Replay(session, base, js').Some? && js <= js' && Rank(js, id) > 0
    ensures Rank(js', id) == Rank(js, id)
  {
    if |js'| > |js| {
      var older := js'[..|js'| - 1];
      RankStays(session, base, js, older, id);
      CommitIsNew(session, base, js');
    } else {
      assert js' == js;
    }
  }

  /** Two usable sessions of one lineage with the same head hold the same document, up to cached results. */
  lemma SameHeadSameDocument(c: Context, w: World, w': World)
    requires Good(c, w) && Good(c, w') && w.js <= w'.js && w.live.Some? && w'.live.Some?
    requires Replay(c.shelf.session, c.shelf.base, w.js).value.head
      == Replay(c.shelf.session, c.shelf.base, w'.js).value.head
    ensures SameLogic(w.live.value.book.doc, w'.live.value.book.doc)
  {
    hide Replay, Rebuildable, Rank, DocAt, StagedBy, Blank;
    var head := Replay(c.shelf.session, c.shelf.base, w.js).value.head;
    HistoryTreeIsSound(c.shelf.session, c.shelf.base, w.js);
    if head.Some? {
      RankStays(c.shelf.session, c.shelf.base, w.js, w'.js, head.value);
    }
    DocAtOlder(w'.js, c.shelf.base, |w.js|, head);
    assert w'.js[..|w.js|] == w.js;
  }

  // ---- undo, redo, branches ----

  function HistoryOf(c: Context, js: seq<Record>): HistoryState
    requires Replay(c.shelf.session, c.shelf.base, js).Some?
  {
    Replay(c.shelf.session, c.shelf.base, js).value
  }

  /** A request under a new identity that is answered without a record was a preview or a failed write. */
  lemma SuccessIsRecorded(c: Context, w: World, requestId: Id, commitId: Id, op: Op, f: Faults)
    requires Good(c, w) && w.live.Some? && !op.WriteOn? && !op.ApplyStaged?
    requires FirstWith(w.js, requestId).None?
    requires Step(c, w, Ask(requestId, commitId, op, f)).1.Ok?
    ensures
      var a := AttemptOf(c, w.js, w.live.value, requestId, commitId, f.readable, op);
      && a.Proposed? && a.next.Some?
      && Step(c, w, Ask(requestId, commitId, op, f)).0 == World(w.js + [a.record], a.next)
      && Replay(c.shelf.session, c.shelf.base, w.js + [a.record]).Some?
  {
    var a := AttemptOf(c, w.js, w.live.value, requestId, commitId, f.readable, op);
    UnrecordedAnswers(c, w.js, w.live.value, requestId, commitId, f.readable, op);
    if a.Proposed? {
      hide AttemptOf, InSync, Rebuildable, Replay;
      SettleProposal(c, w.js, w.live.value, a, f);
    }
  }

  lemma UnrecordedAnswers(c: Context, js: seq<Record>, live: Live, requestId: Id, commitId: Id, readable: bool, op: Op)
    requires FirstWith(js, requestId).None? && !op.WriteOn? && !op.ApplyStaged?
    ensures !AttemptOf(c, js, live, requestId, commitId, readable, op).Answered?
  {
    hide ControlAttempt, Replay, WriteAttempt, ApplyStagedAttempt;
  }

  /** Undo goes to the parent of the head and moves no branch. */
  lemma UndoMovesToParent(c: Context, w: World, requestId: Id, commitId: Id, f: Faults)
    requires Good(c, w) && w.live.Some? && FirstWith(w.js, requestId).None?
    requires Step(c, w, Ask(requestId, commitId, UndoOnce, f)).1.Ok?
    ensures
      var w' := Step(c, w, Ask(requestId, commitId, UndoOnce, f)).0;
      && Replay(c.shelf.session, c.shelf.base, w'.js).Some?
      && HistoryOf(c, w'.js).head == ParentOf(HistoryOf(c, w.js), HistoryOf(c, w.js).head)
      && HistoryOf(c, w'.js).branch == HistoryOf(c, w.js).branch
      && HistoryOf(c, w'.js).branches == HistoryOf(c, w.js).branches
      && HistoryOf(c, w'.js).parents == HistoryOf(c, w.js).parents
  {
    hide Step, Rebuildable, StagedBy, DocAt, HeadDoc, ControlBook, ControlRevision, FirstWith, Replay;
    SuccessIsRecorded(c, w, requestId, commitId, UndoOnce, f);
    var r := UndoAttempt(c, w.js, w.live.value, requestId, commitId, f.readable).record;
    LastRecordStands(c.shelf.session, c.shelf.base, w.js + [r]);
    ParentsStay(c, w.js, r);
  }

  lemma ParentsStay(c: Context, js: seq<Record>, r: Record)
    requires Replay(c.shelf.session, c.shelf.base, js).Some? && Replay(c.shelf.session, c.shelf.base, js + [r]).Some?
    requires !Publishes(r)
    ensures HistoryOf(c, js + [r]).parents == HistoryOf(c, js).parents
  {
    HistoryTreeIsSound(c.shelf.session, c.shelf.base, js);
    ReplaySnoc(c, js, HistoryOf(c, js), r);
    AdmitGrows(HistoryOf(c, js), r, HistoryOf(c, js + [r]));
  }

  lemma LineageEnds(js: seq<Record>, h: HistoryState, head: Option<Id>)
    requires TreeSound(js, h) && Known(h, head)
    ensures head == Last(Lineage(js, head))
    ensures Lineage(js, head) != [] ==> Lineage(js, ParentOf(h, head)) == Lineage(js, head)[..|Lineage(js, head)| - 1]
  {
    if head.Some? {
      LineageUnfolds(js, h, head.value);
    }
  }

  /** Every member of a lineage has the lineage up to itself. */
  lemma {:induction false} LineageOfMember(js: seq<Record>, h: HistoryState, tip: Option<Id>, k: nat)
    requires TreeSound(js, h) && Known(h, tip) && k < |Lineage(js, tip)|
    ensures Lineage(js, tip)[k] in h.parents && Lineage(js, Some(Lineage(js, tip)[k])) == Lineage(js, tip)[..k + 1]
    decreases if tip.Some? then Rank(js, tip.value) else 0
  {
    assert tip.Some? && ParentIsOlder(js, h, tip.value);
    LineageUnfolds(js, h, tip.value);
    hide Lineage, Rank;
    if k < |Lineage(js, tip)| - 1 {
      LineageOfMember(js, h, h.parents[tip.value], k);
    }
  }

  /** A tree that stays keeps its lineages, whatever the journal has gained. */
  lemma SameTreeSameLineage(c: Context, js: seq<Record>, js': seq<Record>, head: Option<Id>)
    requires Replay(c.shelf.session, c.shelf.base, js).Some? && Replay(c.shelf.session, c.shelf.base, js').Some?
    requires HistoryOf(c, js').parents == HistoryOf(c, js).parents && Known(HistoryOf(c, js), head)
    ensures Lineage(js', head) == Lineage(js, head)
  {
    hide Replay, Lineage;
    HistoryTreeIsSound(c.shelf.session, c.shelf.base, js);
    HistoryTreeIsSound(c.shelf.session, c.shelf.base, js');
    AncestorsEnd(js, HistoryOf(c, js), head, {});
    AncestorsEnd(js', HistoryOf(c, js'), head, {});
  }

  /** The redo walk goes one step down the tip's lineage if the head's lineage is a proper part of it. */
  lemma {:induction false} RedoWalkFollowsLineage(
    js: seq<Record>, h: HistoryState, head: Option<Id>, cursor: Id, seen: set<Id>)
    requires TreeSound(js, h) && Known(h, head) && cursor in h.parents && AllYounger(js, seen, cursor)
    ensures
      var path, tip := Lineage(js, head), Lineage(js, Some(cursor));
      RedoWalk(h.parents, head, cursor, seen) == Ok(if path <= tip && |path| < |tip| then Some(tip[|path|]) else None)
    decreases Rank(js, cursor)
  {
    assert ParentIsOlder(js, h, cursor);
    LineageUnfolds(js, h, cursor);
    LineageEnds(js, h, head);
    LineageEnds(js, h, h.parents[cursor]);
    if h.parents[cursor] != head && h.parents[cursor].Some? {
      RedoWalkFollowsLineage(js, h, head, h.parents[cursor].value, seen + {cursor});
    }
    assert Lineage(js, None) == [];
    hide Lineage, Rank;
    var path, older := Lineage(js, head), Lineage(js, h.parents[cursor]);
    assert path <= older + [cursor] && |path| == |older| ==> path == older;
  }

  predicate OnCurrentBranch(js: seq<Record>, h: HistoryState, x: Id) {
    h.branch in h.branches && x in Lineage(js, h.branches[h.branch])
  }

  /** Redo moves to what RedoTarget names, or stays where it is. */
  lemma RedoMovesToTarget(c: Context, w: World, requestId: Id, commitId: Id, f: Faults)
    requires Good(c, w) && w.live.Some? && FirstWith(w.js, requestId).None?
    requires Step(c, w, Ask(requestId, commitId, RedoOnce, f)).1.Ok?
    ensures
      var w' := Step(c, w, Ask(requestId, commitId, RedoOnce, f)).0;
      var target := RedoTarget(HistoryOf(c, w.js));
      && Replay(c.shelf.session, c.shelf.base, w'.js).Some?
      && target.Ok?
      && HistoryOf(c, w'.js).head == (if target.value.Some? then target.value else HistoryOf(c, w.js).head)
      && HistoryOf(c, w'.js).branch == HistoryOf(c, w.js).branch
      && HistoryOf(c, w'.js).branches == HistoryOf(c, w.js).branches
      && HistoryOf(c, w'.js).parents == HistoryOf(c, w.js).parents
  {
    hide Step, Rebuildable, StagedBy, DocAt, HeadDoc, ControlBook, ControlRevision, FirstWith, RedoTarget, Replay;
    SuccessIsRecorded(c, w, requestId, commitId, RedoOnce, f);
    var r := RedoAttempt(c, w.js, w.live.value, requestId, commitId, f.readable).record;
    LastRecordStands(c.shelf.session, c.shelf.base, w.js + [r]);
    ParentsStay(c, w.js, r);
  }

  lemma StepsKeepLineage(c: Context, w: World, call: Call)
    requires Good(c, w) && WellFormed(c, w, call)
    ensures Good(c, Step(c, w, call).0) && w.js <= Step(c, w, call).0.js
    ensures call.Ask? && Step(c, w, call).1.Ok? ==> Step(c, w, call).0.live.Some?
  {
    StepKeepsGood(c, w, call);
    StepExtends(c, w, call);
    if call.Ask? {
      ErrorsAreFailStop(c, w, call.requestId, call.commitId, call.op, call.faults);
    }
  }

  // ---- many undos, many redos ----

  /** Requests for one operation under identities new at their time, each of them answered. */
  ghost predicate AllServed(c: Context, w: World, calls: seq<Call>, op: Op)
    decreases |calls|
  {
    calls == [] || (
      && calls[0].Ask? && calls[0].op == op && FirstWith(w.js, calls[0].requestId).None?
      && Step(c, w, calls[0]).1.Ok? && AllServed(c, Step(c, w, calls[0]).0, calls[1..], op))
  }

  /** The commits between the base and head, head included. */
  function HeadPath(c: Context, js: seq<Record>): seq<Id>
    requires Replay(c.shelf.session, c.shelf.base, js).Some?
  {
    Lineage(js, HistoryOf(c, js).head)
  }

  /** The commits between the base and the tip of the current branch. */
  function TipPath(c: Context, js: seq<Record>): seq<Id>
    requires Replay(c.shelf.session, c.shelf.base, js).Some?
  {
    var h := HistoryOf(c, js);
    Lineage(js, if h.branch in h.branches then h.branches[h.branch] else None)
  }

  function Shortened(path: seq<Id>, n: nat): seq<Id> {
    if n <= |path| then path[..|path| - n] else []
  }

  function Lengthened(path: seq<Id>, tip: seq<Id>, n: nat): seq<Id> {
    if !(path <= tip) then path else if |path| + n <= |tip| then tip[..|path| + n] else tip
  }

  /** History is not rewritten: the later world has the earlier journal, tree and branches. */
  ghost predicate SameTree(c: Context, w: World, w': World) {
    && Good(c, w) && Good(c, w') && w.live.Some? && w'.live.Some? && w.js <= w'.js
    && var h, h' := HistoryOf(c, w.js), HistoryOf(c, w'.js);
    && h'.parents == h.parents && h'.branch == h.branch && h'.branches == h.branches
    && TipPath(c, w'.js) == TipPath(c, w.js)
  }

  lemma SameTreeHolds(c: Context, w: World, w': World)
    requires Good(c, w) && Good(c, w') && w.live.Some? && w'.live.Some? && w.js <= w'.js
    requires
      var h, h' := HistoryOf(c, w.js), HistoryOf(c, w'.js);
      h'.parents == h.parents && h'.branch == h.branch && h'.branches == h.branches
    ensures SameTree(c, w, w')
  {
    hide Replay, Lineage, InSync, Rebuildable;
    var h := HistoryOf(c, w.js);
    HistoryTreeIsSound(c.shelf.session, c.shelf.base, w.js);
    SameTreeSameLineage(c, w.js, w'.js, if h.branch in h.branches then h.branches[h.branch] else None);
  }

  lemma UndoShortens(c: Context, w: World, call: Call)
    requires Good(c, w) && call.Ask? && call.op.UndoOnce?
    requires FirstWith(w.js, call.requestId).None? && Step(c, w, call).1.Ok?
    ensures
      var w' := Step(c, w, call).0;
      SameTree(c, w, w') && HeadPath(c, w'.js) == Shortened(HeadPath(c, w.js), 1)
  {
    hide Step, Inv, Lineage, Replay;
    var w' := Step(c, w, call).0;
    UnservedIsDead(c, w, call);
    GoodReplays(c, w);
    StepsKeepLineage(c, w, call);
    UndoMovesToParent(c, w, call.requestId, call.commitId, call.faults);
    SameTreeHolds(c, w, w');
    HistoryTreeIsSound(c.shelf.session, c.shelf.base, w.js);
    SameTreeSameLineage(c, w.js, w'.js, HistoryOf(c, w'.js).head);
    LineageEnds(w.js, HistoryOf(c, w.js), HistoryOf(c, w.js).head);
  }

  lemma UnservedIsDead(c: Context, w: World, call: Call)
    requires call.Ask? && Step(c, w, call).1.Ok?
    ensures w.live.Some?
  {
  }

  lemma RedoLengthens(c: Context, w: World, call: Call)
    requires Good(c, w) && call.Ask? && call.op.RedoOnce?
    requires FirstWith(w.js, call.requestId).None? && Step(c, w, call).1.Ok?
    ensures
      var w' := Step(c, w, call).0;
      SameTree(c, w, w') && HeadPath(c, w'.js) == Lengthened(HeadPath(c, w.js), TipPath(c, w.js), 1)
  {
    hide Step, Inv, Lineage, Replay;
    var w' := Step(c, w, call).0;
    UnservedIsDead(c, w, call);
    GoodReplays(c, w);
    StepsKeepLineage(c, w, call);
    RedoMovesToTarget(c, w, call.requestId, call.commitId, call.faults);
    SameTreeHolds(c, w, w');
    RedoTargetIsNext(c, w.js);
    HistoryTreeIsSound(c.shelf.session, c.shelf.base, w.js);
    SameTreeSameLineage(c, w.js, w'.js, HistoryOf(c, w'.js).head);
  }

  lemma RedoTargetIsNext(c: Context, js: seq<Record>)
    requires Replay(c.shelf.session, c.shelf.base, js).Some?
    ensures
      var h, path, tip := HistoryOf(c, js), HeadPath(c, js), TipPath(c, js);
      && (path <= tip && |path| < |tip| ==>
            && RedoTarget(h) == Ok(Some(tip[|path|])) && tip[|path|] in h.parents
            && Lineage(js, Some(tip[|path|])) == Lengthened(path, tip, 1))
      && (!(path <= tip && |path| < |tip|) ==> RedoTarget(h) == Ok(None) && Lengthened(path, tip, 1) == path)
  {
    hide Replay, RedoWalk;
    var h := HistoryOf(c, js);
    HistoryTreeIsSound(c.shelf.session, c.shelf.base, js);
    var tip := h.branches[h.branch];
    if tip.Some? {
      RedoWalkFollowsLineage(js, h, h.head, tip.value, {});
      if |HeadPath(c, js)| < |TipPath(c, js)| {
        LineageOfMember(js, h, tip, |HeadPath(c, js)|);
      }
    }
  }

  lemma {:induction false} UndosShorten(c: Context, w: World, calls: seq<Call>)
    requires Good(c, w) && w.live.Some? && AllServed(c, w, calls, UndoOnce)
    ensures
      var w' := RunTo(c, w, calls);
      SameTree(c, w, w') && HeadPath(c, w'.js) == Shortened(HeadPath(c, w.js), |calls|)
    decreases |calls|
  {
    hide Step, Inv, HeadPath, TipPath;
    if calls == [] {
      SameTreeHolds(c, w, w);
    } else {
      UndoShortens(c, w, calls[0]);
      UndosShorten(c, Step(c, w, calls[0]).0, calls[1..]);
    }
  }

  lemma {:induction false} RedosLengthen(c: Context, w: World, calls: seq<Call>)
    requires Good(c, w) && w.live.Some? && AllServed(c, w, calls, RedoOnce)
    ensures
      var w' := RunTo(c, w, calls);
      SameTree(c, w, w') && HeadPath(c, w'.js) == Lengthened(HeadPath(c, w.js), TipPath(c, w.js), |calls|)
    decreases |calls|
  {
    hide Step, Inv, HeadPath, TipPath;
    if calls == [] {
      SameTreeHolds(c, w, w);
    } else {
      RedoLengthens(c, w, calls[0]);
      RedosLengthen(c, Step(c, w, calls[0]).0, calls[1..]);
    }
  }

  /**
    Any number of undos and then any number of redos: undos take commits off the path to head, redos
    put commits of the current branch's path on, if what was left is part of it.
   */
  lemma RedosAfterUndos(c: Context, w: World, undos: seq<Call>, redos: seq<Call>)
    requires Good(c, w) && w.live.Some? && AllServed(c, w, undos, UndoOnce)
    requires AllServed(c, RunTo(c, w, undos), redos, RedoOnce)
    ensures
      var w' := RunTo(c, RunTo(c, w, undos), redos);
      && SameTree(c, w, w')
      && HeadPath(c, w'.js) == Lengthened(Shortened(HeadPath(c, w.js), |undos|), TipPath(c, w.js), |redos|)
  {
    hide Inv, HeadPath, TipPath, RunTo;
    UndosShorten(c, w, undos);
    RedosLengthen(c, RunTo(c, w, undos), redos);
  }

  /** Equal paths are equal heads, and a head lies on the current branch exactly if its path starts that of the tip. */
  lemma PathsAreHeads(c: Context, w: World, w': World)
    requires SameTree(c, w, w')
    ensures HeadPath(c, w'.js) == HeadPath(c, w.js) <==> HistoryOf(c, w'.js).head == HistoryOf(c, w.js).head
    ensures
      var h := HistoryOf(c, w.js);
      h.head.Some? ==> (OnCurrentBranch(w.js, h, h.head.value) <==> HeadPath(c, w.js) <= TipPath(c, w.js))
  {
    hide Replay, Lineage, InSync, Rebuildable, Rank, Ranked;
    var h, h' := HistoryOf(c, w.js), HistoryOf(c, w'.js);
    HistoryTreeIsSound(c.shelf.session, c.shelf.base, w.js);
    HistoryTreeIsSound(c.shelf.session, c.shelf.base, w'.js);
    LineageEnds(w.js, h, h.head);
    LineageEnds(w'.js, h', h'.head);
    SameTreeSameLineage(c, w.js, w'.js, h.head);
    if h.head.Some? && OnCurrentBranch(w.js, h, h.head.value) {
      var k :| 0 <= k < |TipPath(c, w.js)| && TipPath(c, w.js)[k] == h.head.value;
      LineageOfMember(w.js, h, h.branches[h.branch], k);
    }
  }

  /**
    As many redos as undos, no more than there are commits to undo: they come back to the head they
    left exactly if it lies on the current branch; then the document is back as well.
   */
  lemma RedosInvertUndos(c: Context, w: World, undos: seq<Call>, redos: seq<Call>)
    requires Good(c, w) && w.live.Some? && AllServed(c, w, undos, UndoOnce)
    requires AllServed(c, RunTo(c, w, undos), redos, RedoOnce)
    requires 1 <= |undos| == |redos| <= |HeadPath(c, w.js)|
    ensures
      var w' := RunTo(c, RunTo(c, w, undos), redos);
      var h := HistoryOf(c, w.js);
      && SameTree(c, w, w') && h.head.Some?
      && (HistoryOf(c, w'.js).head == h.head <==> OnCurrentBranch(w.js, h, h.head.value))
      && (OnCurrentBranch(w.js, h, h.head.value) ==> SameLogic(w.live.value.book.doc, w'.live.value.book.doc))
  {
    hide RunTo, InSync, Rebuildable, OnCurrentBranch, TipPath, Replay;
    var w' := RunTo(c, RunTo(c, w, undos), redos);
    RedosAfterUndos(c, w, undos, redos);
    PathsAreHeads(c, w, w');
    assert HistoryOf(c, w.js).head.Some?;
    hide HeadPath;
    if HistoryOf(c, w'.js).head == HistoryOf(c, w.js).head {
      SameHeadSameDocument(c, w, w');
    }
  }

  /** One undo and one redo. */
  lemma RedoInvertsUndo(
    c: Context, w: World, undoId: Id, undoCommit: Id, f: Faults, redoId: Id, redoCommit: Id, g: Faults)
    requires Good(c, w) && w.live.Some? && FirstWith(w.js, undoId).None?
    requires HistoryOf(c, w.js).head.Some?
    requires Step(c, w, Ask(undoId, undoCommit, UndoOnce, f)).1.Ok?
    requires
      var w1 := Step(c, w, Ask(undoId, undoCommit, UndoOnce, f)).0;
      FirstWith(w1.js, redoId).None? && Step(c, w1, Ask(redoId, redoCommit, RedoOnce, g)).1.Ok?
    ensures
      var w1 := Step(c, w, Ask(undoId, undoCommit, UndoOnce, f)).0;
      var w2 := Step(c, w1, Ask(redoId, redoCommit, RedoOnce, g)).0;
      var h := HistoryOf(c, w.js);
      && Good(c, w2) && w2.live.Some?
      && HistoryOf(c, w2.js).branches == h.branches
      && (HistoryOf(c, w2.js).head == h.head <==> OnCurrentBranch(w.js, h, h.head.value))
      && (OnCurrentBranch(w.js, h, h.head.value) ==> SameLogic(w.live.value.book.doc, w2.live.value.book.doc))
  {
    hide Step, Inv, OnCurrentBranch;
    var undo, redo := Ask(undoId, undoCommit, UndoOnce, f), Ask(redoId, redoCommit, RedoOnce, g);
    var w1 := Step(c, w, undo).0;
    OneCall(c, w, undo);
    OneCall(c, w1, redo);
    GoodReplays(c, w);
    HistoryTreeIsSound(c.shelf.session, c.shelf.base, w.js);
    LineageEnds(w.js, HistoryOf(c, w.js), HistoryOf(c, w.js).head);
    hide AllServed, RunTo, Lineage, Replay;
    RedosInvertUndos(c, w, [undo], [redo]);
  }

  lemma OneCall(c: Context, w: World, call: Call)
    ensures RunTo(c, w, [call]) == Step(c, w, call).0
    ensures call.Ask? && FirstWith(w.js, call.requestId).None? && Step(c, w, call).1.Ok? ==>
      AllServed(c, w, [call], call.op)
  {
    hide Step;
    assert [call][1..] == [];
    assert RunTo(c, Step(c, w, call).0, []) == Step(c, w, call).0;
    assert AllServed(c, Step(c, w, call).0, [], UndoOnce) && AllServed(c, Step(c, w, call).0, [], RedoOnce);
  }

  // ---- writes and switches ----

  /** A publishing write becomes the head, under the head before it, and the tip of the current branch. */
  lemma WriteBecomesHead(c: Context, js: seq<Record>, r: Record)
    requires Replay(c.shelf.session, c.shelf.base, js).Some? && Replay(c.shelf.session, c.shelf.base, js + [r]).Some?
    requires Publishes(r)
    ensures
      var h, h' := HistoryOf(c, js), HistoryOf(c, js + [r]);
      && h'.head == Some(r.commitId) && ParentOf(h', h'.head) == h.head
      && h'.branches == h.branches[h.branch := Some(r.commitId)] && h'.branch == h.branch
      && OnCurrentBranch(js + [r], h', r.commitId)
  {
    HistoryTreeIsSound(c.shelf.session, c.shelf.base, js);
    ReplaySnoc(c, js, HistoryOf(c, js), r);
    AdmitGrows(HistoryOf(c, js), r, HistoryOf(c, js + [r]));
    PublishingMovesBranch(HistoryOf(c, js), r, HistoryOf(c, js + [r]));
    assert (js + [r])[..|js|] == js;
  }

  lemma PublishingMovesBranch(h: HistoryState, r: Record, h': HistoryState)
    requires Admit(h, r) == Some(h') && Publishes(r)
    ensures h'.head == Some(r.commitId) && h'.branch == h.branch
      && h'.branches == h.branches[h.branch := Some(r.commitId)]
  {
  }

  /** Undo after a document write gives back the document before it and leaves every branch where the write put it. */
  lemma UndoRestoresDocument(
    c: Context, w: World, call: Call, undoId: Id, undoCommit: Id, f: Faults)
    requires Good(c, w) && w.live.Some? && call.Ask? && WellFormed(c, w, call)
    requires
      var w1 := Step(c, w, call).0;
      && |w1.js| == |w.js| + 1 && Publishes(w1.js[|w.js|]) && w1.live.Some?
      && FirstWith(w1.js, undoId).None? && Step(c, w1, Ask(undoId, undoCommit, UndoOnce, f)).1.Ok?
    ensures
      var w1 := Step(c, w, call).0;
      var w2 := Step(c, w1, Ask(undoId, undoCommit, UndoOnce, f)).0;
      && Good(c, w1) && Good(c, w2) && w2.live.Some?
      && HistoryOf(c, w2.js).head == HistoryOf(c, w.js).head
      && HistoryOf(c, w2.js).branches == HistoryOf(c, w1.js).branches
      && SameLogic(w.live.value.book.doc, w2.live.value.book.doc)
  {
    hide Step, Inv, WellFormed;
    var w1 := Step(c, w, call).0;
    var w2 := Step(c, w1, Ask(undoId, undoCommit, UndoOnce, f)).0;
    StepsKeepLineage(c, w, call);
    PlainAskIsWellFormed(c, w1, undoId, undoCommit, UndoOnce, f);
    StepsKeepLineage(c, w1, Ask(undoId, undoCommit, UndoOnce, f));
    assert w1.js == w.js + [w1.js[|w.js|]];
    GoodReplays(c, w);
    GoodReplays(c, w1);
    WriteBecomesHead(c, w.js, w1.js[|w.js|]);
    UndoMovesToParent(c, w1, undoId, undoCommit, f);
    SameHeadSameDocument(c, w, w2);
  }

  lemma GoodReplays(c: Context, w: World)
    requires Good(c, w)
    ensures Replay(c.shelf.session, c.shelf.base, w.js).Some?
  {
  }

  lemma PlainAskIsWellFormed(c: Context, w: World, requestId: Id, commitId: Id, op: Op, f: Faults)
    requires !op.WriteOn? && !op.ApplyStaged?
    ensures WellFormed(c, w, Ask(requestId, commitId, op, f))
  {
  }

  lemma SwitchMovesToTip(c: Context, w: World, requestId: Id, commitId: Id, name: Id, f: Faults)
    requires Good(c, w) && w.live.Some? && FirstWith(w.js, requestId).None?
    requires Step(c, w, Ask(requestId, commitId, ToBranch(name), f)).1.Ok?
    ensures
      var w' := Step(c, w, Ask(requestId, commitId, ToBranch(name), f)).0;
      && Replay(c.shelf.session, c.shelf.base, w'.js).Some?
      && name in HistoryOf(c, w.js).branches
      && HistoryOf(c, w'.js).head == HistoryOf(c, w.js).branches[name]
      && HistoryOf(c, w'.js).branch == name
      && HistoryOf(c, w'.js).branches == HistoryOf(c, w.js).branches
  {
    hide Step, Rebuildable, StagedBy, DocAt, HeadDoc, ControlBook, ControlRevision, FirstWith, Replay;
    SuccessIsRecorded(c, w, requestId, commitId, ToBranch(name), f);
    var r := SwitchBranchAttempt(c, w.js, w.live.value, requestId, commitId, f.readable, name).record;
    LastRecordStands(c.shelf.session, c.shelf.base, w.js + [r]);
  }

  /** Switching away from a branch at its tip and back again restores its document. */
  lemma SwitchingBackRestores(
    c: Context, w: World, awayId: Id, awayCommit: Id, other: Id, f: Faults, backId: Id, backCommit: Id, g: Faults)
    requires Good(c, w) && w.live.Some? && FirstWith(w.js, awayId).None?
    requires HistoryOf(c, w.js).branch in HistoryOf(c, w.js).branches
    requires Step(c, w, Ask(awayId, awayCommit, ToBranch(other), f)).1.Ok?
    requires
      var w1 := Step(c, w, Ask(awayId, awayCommit, ToBranch(other), f)).0;
      FirstWith(w1.js, backId).None?
        && Step(c, w1, Ask(backId, backCommit, ToBranch(HistoryOf(c, w.js).branch), g)).1.Ok?
    ensures
      var w1 := Step(c, w, Ask(awayId, awayCommit, ToBranch(other), f)).0;
      var w2 := Step(c, w1, Ask(backId, backCommit, ToBranch(HistoryOf(c, w.js).branch), g)).0;
      var h := HistoryOf(c, w.js);
      && Good(c, w2) && w2.live.Some?
      && HistoryOf(c, w2.js).branch == h.branch && HistoryOf(c, w2.js).branches == h.branches
      && HistoryOf(c, w2.js).head == h.branches[h.branch]
      && (h.head == h.branches[h.branch] ==> SameLogic(w.live.value.book.doc, w2.live.value.book.doc))
  {
    hide Step, Inv, WellFormed;
    GoodReplays(c, w);
    var h := HistoryOf(c, w.js);
    var w1 := Step(c, w, Ask(awayId, awayCommit, ToBranch(other), f)).0;
    var w2 := Step(c, w1, Ask(backId, backCommit, ToBranch(h.branch), g)).0;
    PlainAskIsWellFormed(c, w, awayId, awayCommit, ToBranch(other), f);
    PlainAskIsWellFormed(c, w1, backId, backCommit, ToBranch(h.branch), g);
    StepsKeepLineage(c, w, Ask(awayId, awayCommit, ToBranch(other), f));
    StepsKeepLineage(c, w1, Ask(backId, backCommit, ToBranch(h.branch), g));
    SwitchMovesToTip(c, w, awayId, awayCommit, other, f);
    SwitchMovesToTip(c, w1, backId, backCommit, h.branch, g);
    if h.head == h.branches[h.branch] {
      SameHeadSameDocument(c, w, w2);
    }
  }
}
