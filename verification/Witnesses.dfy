/**
  Concrete inputs on the failing side of the conditions: the promises they break are promises the
  program does not keep everywhere.
 */
module Witnesses {
  import opened Wrappers
  import opened Documents
  import opened Writes
  import opened Preparation
  import opened History
  import opened Ancestry
  import opened Journals
  import opened Protocol
  import opened Soundness
  import opened Runs
  import opened Guarantees
  import opened Service
  import opened Revisits
  import opened LegacyOrder
  import opened LegacyShape
  import opened LegacyImport
  import opened Origins

  // ---- an importable session that is refused ----

  /** One event on `main`, an alias branch at the same tip, and a name the stream itself needs. */
  function ClashingSession(base: Doc): Legacy {
    var x := ControlId(2);
    Legacy(
      "s", base, true, [Event(x, None, None, "h", true)], [LegacyBranch("main", Some(x)), LegacyBranch("b", Some(x))],
      "main", Some(x), (d, e) => Some(d))
  }

  lemma RootPath(parents: Parents, x: Id)
    requires x in parents && parents[x] == None
    ensures Ancestors(parents, Some(x), {}) == Ok([x])
  {
    assert Ancestors(parents, None, {x}) == Ok([]);
    assert [] + [x] == [x];
  }

  lemma InsertFirst(name: Id)
    ensures InsertName([], name) == [name]
  {
  }

  lemma ClashingFacts(base: Doc)
    ensures
      var s, x := ClashingSession(base), ControlId(2);
      && ParentsOf(s.events) == map[x := None]
      && TipsOf(s.branches) == map["main" := Some(x), "b" := Some(x)]
      && OrderOf(s.branches) == ["main", "b"]
  {
    var s, x := ClashingSession(base), ControlId(2);
    assert s.events[..0] == [];
    assert s.branches[..1][..0] == [] && s.branches[..1] == [LegacyBranch("main", Some(x))];
    assert OthersOf(s.branches[..1]) == [];
    InsertFirst("b");
    assert ["main"] + ["b"] == ["main", "b"];
  }

  lemma ClashingIsImportable(base: Doc)
    ensures Importable(ClashingSession(base))
  {
    hide Hex, ReplayPath;
    var s, x := ClashingSession(base), ControlId(2);
    ClashingFacts(base);
    ClashingDocument(base);
    var parents := ParentsOf(s.events);
    RootPath(parents, x);
    hide Ancestors, Materialized, TipsOf, ParentsOf;
    assert Path(parents, TipsOf(s.branches), "main") == Ok([x]);
    assert "main" in TipsOf(s.branches) && x in Path(parents, TipsOf(s.branches), "main").value;
  }

  lemma ClashingDocument(base: Doc)
    ensures Materialized(ClashingSession(base), Some(ControlId(2))) == Some(base)
  {
    hide Hex;
    var s, x := ClashingSession(base), ControlId(2);
    ClashingFacts(base);
    RootPath(ParentsOf(s.events), x);
    hide ParentsOf;
    assert [x][..0] == [] && ReplayPath(s, []) == Some(base);
  }

  /** The record that creates the alias takes the second place of the stream, and with it the event's name. */
  lemma ImportableSessionIsRefused(base: Doc)
    ensures Importable(ClashingSession(base)) && !NamesAreFree(ClashingSession(base))
  {
    hide Hex, Importable, ParentsOf, TipsOf, OrderOf, Ancestors, StreamShape;
    var s, x := ClashingSession(base), ControlId(2);
    ClashingIsImportable(base);
    ClashingFacts(base);
    ClashingStream(LayoutOf(s), x);
    assert 1 in ControlSlots(s) && x in ParentsOf(s.events) && x == ControlId(1 + 1);
  }

  lemma ClashingStream(l: Layout, x: Id)
    requires l == Layout(map[x := None], map["main" := Some(x), "b" := Some(x)], ["main", "b"])
    ensures StreamShape(l, "main", Some(x)) == [Some(x), None]
  {
    hide EventsShape, AliasTail, Listed, BranchesAfter, BranchAfter;
    ClashingList(l, x);
    ClashingShape(l, x);
    assert TailLength(l, [x], "main", Some(x)) == 1;
    assert Blanks(1) == [None];
  }

  lemma ClashingList(l: Layout, x: Id)
    requires l == Layout(map[x := None], map["main" := Some(x), "b" := Some(x)], ["main", "b"])
    ensures Listed(l.parents, l.tips, l.order) == Ok([x])
  {
    RootPath(l.parents, x);
    MissingOne(x);
    hide Ancestors, Missing;
    var none: seq<Id> := [];
    ListedAdds(l.parents, l.tips, none, "main");
    assert none + ["main"] == ["main"] && none + [x] == [x];
    ListedAdds(l.parents, l.tips, ["main"], "b");
    assert ["main"] + ["b"] == l.order && [x] + none == [x];
  }

  lemma ClashingShape(l: Layout, x: Id)
    requires l == Layout(map[x := None], map["main" := Some(x), "b" := Some(x)], ["main", "b"])
    ensures EventsShape(l, [x]) == [Some(x)] && BranchAfter(l, [x]) == "main"
    ensures AliasTail(l.tips, l.order, BranchesAfter(l, [x]), Last([x])) == (1, Some(x))
  {
    RootPath(l.parents, x);
    assert BranchOwning(l, x) == "main";
    hide OwningBranch, Ancestors, Listed;
    assert [x][..0] == [];
    assert EventsShape(l, []) == [] && Blanks(0) == [];
    assert BranchesAfter(l, [x]) == {"main"};
    assert l.order[..0] == [] && l.order[..1] == ["main"] && l.order[..2] == l.order;
    AliasStep(l.tips, l.order, 0, {"main"}, Some(x));
    AliasStep(l.tips, l.order, 1, {"main"}, Some(x));
  }

  lemma MissingOne(x: Id)
    ensures Missing([x], []) == [x] && Missing([x], [x]) == []
  {
    assert [x][..0] == [];
  }

  lemma ListedAdds(parents: Parents, tips: Tips, front: seq<Id>, name: Id)
    requires Listed(parents, tips, front).Ok? && Path(parents, tips, name).Ok?
    ensures
      var older := Listed(parents, tips, front).value;
      Listed(parents, tips, front + [name]) == Ok(older + Missing(Path(parents, tips, name).value, older))
  {
    assert (front + [name])[..|front|] == front;
  }

  // ---- undo and redo that do not come back ----

  /** Two roots on two branches, `main` selected and the other branch's root checked out. */
  function TwoRoots(base: Doc): Legacy {
    Legacy(
      "s", base, true, [Event("A", None, None, "h", true), Event("B", None, Some("h"), "k", true)],
      [LegacyBranch("main", Some("A")), LegacyBranch("b", Some("B"))], "main", Some("B"), (d, e) => Some(d))
  }

  lemma TwoRootsFacts(base: Doc)
    ensures
      var s := TwoRoots(base);
      && ParentsOf(s.events) == map["A" := None, "B" := None]
      && TipsOf(s.branches) == map["main" := Some("A"), "b" := Some("B")]
      && Materialized(s, None) == Materialized(s, Some("A")) == Materialized(s, Some("B")) == Some(base)
  {
    var s := TwoRoots(base);
    assert s.events[..1][..0] == [] && s.events[..1] == [s.events[0]];
    assert s.branches[..1][..0] == [] && s.branches[..1] == [s.branches[0]];
    RootPath(ParentsOf(s.events), "A");
    RootPath(ParentsOf(s.events), "B");
    assert ["A"][..0] == [] && ["B"][..0] == [];
    assert ReplayPath(s, []) == Some(base);
  }

  predicate Spare(js: seq<Record>, id: Id) {
    forall i | 0 <= i < |js| :: js[i].commitId != id && js[i].requestId != id
  }

  lemma SpareIsNew(c: Context, js: seq<Record>, id: Id)
    requires Replay(c.shelf.session, c.shelf.base, js).Some? && Spare(js, id)
    ensures FirstWith(js, id).None?
    ensures id !in HistoryOf(c, js).requestIds && id !in HistoryOf(c, js).commitIds
  {
    HistoryTreeIsSound(c.shelf.session, c.shelf.base, js);
    RequestIdsAreListed(c.shelf.session, c.shelf.base, js);
  }

  /** The first `n` of the two events are in, and the draft stands as listed. */
  ghost predicate Stands(
    base: Doc, d: Draft, n: nat, branch: Id, head: Option<Id>, branches: map<Id, Option<Id>>, count: nat)
    requires n <= 2
  {
    && Written(TwoRoots(base), d, ["A", "B"], n)
    && d.branch == branch && d.head == head && d.branches == branches && |d.records| == count && Spare(d.records, "o")
         && Spare(d.records, "u") && Spare(d.records, "r")
  }

  lemma StandsAfterControl(
    base: Doc, d: Draft, n: nat, t: Transition, e: Effects, head: Option<Id>, branch: Id, branches: map<Id, Option<Id>>)
    requires n <= 2 && Stands(base, d, n, d.branch, d.head, d.branches, |d.records|)
    requires e.prepared.None? && e.outcome.None?
    requires ControlAllowed(
      d, Restrict(ParentsOf(TwoRoots(base).events), ["A", "B"][..n]), t, e, head, branch, branches)
    ensures Stands(
      base, Controlled(TwoRoots(base), d, t, e, head, branch, branches), n, branch, head, branches, |d.records| + 1)
  {
    hide Written, Hex, ParentsOf;
    var d' := Controlled(TwoRoots(base), d, t, e, head, branch, branches);
    ControlIsWritten(TwoRoots(base), d, ["A", "B"], n, t, e, head, branch, branches);
    var r := d'.records[|d.records|];
    assert r.commitId[0] == 'i' && r.requestId[0] == 'l';
  }

  lemma StandsAfterEvent(base: Doc, d: Draft, n: nat)
    requires n < 2 && Stands(base, d, n, d.branch, None, d.branches, |d.records|)
    ensures
      var s := TwoRoots(base);
      var x := s.events[n].id;
      Stands(
        base, LegacyImport.Committed(s, d, s.events[n], base, base), n + 1, d.branch, Some(x),
        d.branches[d.branch := Some(x)],
        |d.records| + 1)
  {
    hide Written, Materialized, ParentsOf;
    var s := TwoRoots(base);
    TwoRootsFacts(base);
    EventIsWritten(s, d, ["A", "B"], n, s.events[n]);
    var r := LegacyImport.Committed(s, d, s.events[n], base, base).records[|d.records|];
    assert r.requestId[0] == 'l' && (r.commitId == "A" || r.commitId == "B");
  }

  lemma NothingStands(base: Doc)
    ensures Stands(base, Draft([], MAIN, None, map[MAIN := None], 0, 0), 0, MAIN, None, map[MAIN := None], 0)
  {
    assert Restrict(ParentsOf(TwoRoots(base).events), ["A", "B"][..0]) == map[];
  }

  lemma Restricted(base: Doc, n: nat)
    requires n <= 2
    ensures
      Restrict(ParentsOf(TwoRoots(base).events), ["A", "B"][..n])
        == if n == 0 then map[] else if n == 1 then map["A" := None] else map["A" := None, "B" := None]
  {
    TwoRootsFacts(base);
    hide ParentsOf;
    if n == 1 {
      assert ["A", "B"][..1] == ["A"];
    } else if n == 2 {
      assert ["A", "B"][..2] == ["A", "B"];
    }
  }

  /** The stream, record by record, as the program writes it. */
  lemma TwoRootsStream(base: Doc) returns (d: Draft)
    ensures Stands(base, d, 2, "main", Some("B"), map["main" := Some("A"), "b" := Some("B")], 7)
  {
    hide Written, Spare, Controlled, LegacyImport.Committed, ParentsOf, Restrict;
    Restricted(base, 1);
    Restricted(base, 2);
    var s := TwoRoots(base);
    NothingStands(base);
    d := Draft([], MAIN, None, map[MAIN := None], 0, 0);
    StandsAfterEvent(base, d, 0);
    d := LegacyImport.Committed(s, d, s.events[0], base, base);
    var one: map<Id, Option<Id>> := map["main" := Some("A")];
    assert map[MAIN := None][MAIN := Some("A")] == one;

    var root := NoEffects.(target := Some(None));
    StandsAfterControl(base, d, 1, Checkout, root, None, "main", one);
    d := Controlled(s, d, Checkout, root, None, "main", one);
    var name := NoEffects.(branchName := Some("b"));
    var two := one["b" := None];
    StandsAfterControl(base, d, 1, BranchCreate, name, None, "main", two);
    d := Controlled(s, d, BranchCreate, name, None, "main", two);
    StandsAfterControl(base, d, 1, BranchSwitch, name, None, "b", two);
    d := Controlled(s, d, BranchSwitch, name, None, "b", two);
    StandsAfterEvent(base, d, 1);
    d := LegacyImport.Committed(s, d, s.events[1], base, base);
    var both: map<Id, Option<Id>> := map["main" := Some("A"), "b" := Some("B")];
    assert two["b" := Some("B")] == both;

    var home := NoEffects.(branchName := Some("main"));
    StandsAfterControl(base, d, 2, BranchSwitch, home, Some("A"), "main", both);
    d := Controlled(s, d, BranchSwitch, home, Some("A"), "main", both);
    var other := NoEffects.(target := Some(Some("B")));
    StandsAfterControl(base, d, 2, Checkout, other, Some("B"), "main", both);
    d := Controlled(s, d, Checkout, other, Some("B"), "main", both);
  }

  /** Plain event names keep the stream free of clashes. */
  lemma PlainStreamIsClean(js: seq<Record>, done: seq<Id>)
    requires Named(js) && EventsOnce(js, done) && (forall x | x in done :: Plain(x))
    ensures Clean(js)
  {
    hide Hex;
    forall i | 0 <= i < |js| && !js[i].transition.Mutation? ensures CONTROL_PREFIX <= js[i].commitId {
    }
    forall i, j | 0 <= i < j < |js| ensures js[i].commitId != js[j].commitId {
      if !js[i].transition.Mutation? && !js[j].transition.Mutation? {
        ControlsDiffer(i + 1, j + 1);
      }
    }
  }

  function Healthy(): Faults {
    Faults(true, NoFault, true)
  }

  function Site(engine: Engine, base: Doc): Context {
    Context(engine, Shelf("s", base, r => ""))
  }

  lemma {:induction false} SiteBytes(engine: Engine, base: Doc, js: seq<Record>)
    ensures Bytes(Site(engine, base).shelf, js) == 2 + |js|
  {
    if js != [] {
      SiteBytes(engine, base, js[..|js| - 1]);
    }
  }

  /** The imported journal stands at B while `main`, its current branch, ends at A. */
  ghost predicate StandsAtB(c: Context, js: seq<Record>) {
    && Replay(c.shelf.session, c.shelf.base, js).Some?
    && var h := HistoryOf(c, js);
    && h.head == Some("B") && h.parents == map["A" := None, "B" := None]
    && h.branch == "main" && h.branches == map["main" := Some("A"), "b" := Some("B")]
  }

  lemma TwoRootsImported(engine: Engine, base: Doc) returns (js: seq<Record>)
    ensures
      var c := Site(engine, base);
      && Faithful(TwoRoots(base), js) && Good(c, World(js, None)) && StandsAtB(c, js)
      && |js| == 7 && Spare(js, "o") && Spare(js, "u") && Spare(js, "r")
  {
    hide Materialized, EventKept, Genuine, Replay, Rebuildable, InSync, ParentsOf;
    var c, s, all := Site(engine, base), TwoRoots(base), ["A", "B"];
    TwoRootsFacts(base);
    var d := TwoRootsStream(base);
    PlainStreamIsClean(d.records, all[..2]);
    assert FinalBranches(TipsOf(s.branches)) == d.branches;
    WrittenIsFaithful(s, d, all);
    js := d.records;
  }

  function Restarting(): Call {
    Recover("o", "o", "e", Healthy())
  }

  /** Recovered, the session stands where the journal did. */
  lemma TwoRootsRecovered(engine: Engine, base: Doc, js: seq<Record>)
    requires Good(Site(engine, base), World(js, None)) && StandsAtB(Site(engine, base), js)
    requires |js| == 7 && Spare(js, "o") && Spare(js, "u") && Spare(js, "r")
    ensures
      var c := Site(engine, base);
      var w := Step(c, World(js, None), Restarting()).0;
      && Good(c, w) && w.live.Some? && StandsAtB(c, w.js)
      && |w.js| == 8 && Spare(w.js, "u") && Spare(w.js, "r")
  {
    hide Replay, Rebuildable, InSync, Rebuilt, Bytes;
    var c, h := Site(engine, base), HistoryOf(Site(engine, base), js);
    SpareIsNew(c, js, "o");
    SiteBytes(engine, base, js);
    RecoveryIsServedIffNew(c, js, h, Restarting());
    var r := RestartOf(c, js, Restarting())[0];
    LastRecordStands(c.shelf.session, c.shelf.base, js + [r]);
    ParentsStay(c, js, r);
  }

  /** A served move of history leaves one record, under the identities of its request. */
  lemma MoveIsServed(engine: Engine, base: Doc, w: World, id: Id, op: Op)
    requires op.UndoOnce? || op.RedoOnce?
    requires Good(Site(engine, base), w) && w.live.Some? && |w.js| < 10 && id != "" && Spare(w.js, id)
    ensures
      var c := Site(engine, base);
      var (w', reply) := Step(c, w, Ask(id, id, op, Healthy()));
      && FirstWith(w.js, id).None? && reply.Ok? && Good(c, w') && w'.live.Some?
      && |w'.js| == |w.js| + 1 && forall other | other != id && Spare(w.js, other) :: Spare(w'.js, other)
  {
    hide Step, Replay, Rebuildable, InSync, AttemptOf;
    var c := Site(engine, base);
    SpareIsNew(c, w.js, id);
    SiteBytes(engine, base, w.js);
    HistoryMovesAreServed(c, w, HistoryOf(c, w.js), id, id, op, Healthy());
    SuccessIsRecorded(c, w, id, id, op, Healthy());
    PlainAskIsWellFormed(c, w, id, id, op, Healthy());
    StepsKeepLineage(c, w, Ask(id, id, op, Healthy()));
  }

  /**
    Imported and recovered, undo leaves B for the base, and redo then goes to A, the way to the tip of
    the current branch.
   */
  lemma RedoMissesOtherBranch(engine: Engine, base: Doc) returns (js: seq<Record>)
    ensures
      var c := Site(engine, base);
      var w := Step(c, World(js, None), Restarting()).0;
      var (w1, undone) := Step(c, w, Ask("u", "u", UndoOnce, Healthy()));
      var (w2, redone) := Step(c, w1, Ask("r", "r", RedoOnce, Healthy()));
      && Faithful(TwoRoots(base), js)
      && Good(c, w) && w.live.Some? && undone.Ok? && redone.Ok? && Good(c, w1) && Good(c, w2)
      && HistoryOf(c, w.js).head == Some("B") && !OnCurrentBranch(w.js, HistoryOf(c, w.js), "B")
      && HistoryOf(c, w1.js).head == None
      && HistoryOf(c, w2.js).head == Some("A")
  {
    hide Step, Replay, Rebuildable, InSync, Faithful;
    var c := Site(engine, base);
    js := TwoRootsImported(engine, base);
    TwoRootsRecovered(engine, base, js);
    var w := Step(c, World(js, None), Restarting()).0;
    MoveIsServed(engine, base, w, "u", UndoOnce);
    UndoMovesToParent(c, w, "u", "u", Healthy());
    var w1 := Step(c, w, Ask("u", "u", UndoOnce, Healthy())).0;
    MoveIsServed(engine, base, w1, "r", RedoOnce);
    RedoMovesToTarget(c, w1, "r", "r", Healthy());
    HistoryTreeIsSound("s", base, w.js);
    LineageUnfolds(w.js, HistoryOf(c, w.js), "A");
    assert Lineage(w.js, None) == [];
  }

  // ---- an import that adds a branch ----

  /** No events, and a branch file without `main`. */
  function WithoutMain(base: Doc): Legacy {
    Legacy("s", base, true, [], [LegacyBranch("dev", None)], "dev", None, (d, e) => Some(d))
  }

  /** Imported all the same, and then there is a `main`. */
  lemma ImportAddsMain(base: Doc)
    ensures
      var s := WithoutMain(base);
      && Importable(s) && NamesAreFree(s) && "main" !in TipsOf(s.branches)
      && forall js | Faithful(s, js) ::
           Replay(s.session, s.base, js).value.branches == map["main" := None, "dev" := None] != TipsOf(s.branches)
  {
    hide EventKept, Rebuildable, Replay, StreamShape;
    var s := WithoutMain(base);
    assert s.branches[..0] == [] && TipsOf(s.branches) == map["dev" := None];
    assert ParentsOf(s.events) == map[];
    assert Path(map[], TipsOf(s.branches), "dev") == Ok([]);
  }
}
