/**
  Importing a legacy session: a branching log of events becomes one linear stream of records that
  replay turns back into the same tree, the same branches and the same head.
 */
module LegacyImport {
  import opened Wrappers
  import opened Documents
  import opened Writes
  import opened Preparation
  import opened History
  import opened Ancestry
  import opened Journals
  import opened LegacyOrder
  import opened LegacyShape

  datatype Event = Event(id: Id, parent: Option<Id>, previous: Option<string>, hash: string, intact: bool)

  datatype LegacyBranch = LegacyBranch(name: Id, tip: Option<Id>)

  /** `replay` is the meaning of one event; `head` is the possibly undone HEAD the legacy session shows. */
  datatype Legacy = Legacy(
    session: Id, base: Doc, frozen: bool, events: seq<Event>, branches: seq<LegacyBranch>,
    current: Id, head: Option<Id>, replay: (Doc, Id) -> Option<Doc>)

  // ---- what may be imported ----

  predicate ValidSessionId(session: Id) {
    session != "" && forall x | x in session :: IsIdentifierChar(x)
  }

  method ValidateSessionId(session: Id) returns (ok: bool)
    ensures ok <==> ValidSessionId(session)
  {
    if session == "" {
      return false;
    }
    for i := 0 to |session|
      invariant forall k | 0 <= k < i :: IsIdentifierChar(session[k])
    {
      var ch := session[i];
      assert ch in session;
      if !(('a' <= ch && ch <= 'z') || ('A' <= ch && ch <= 'Z') || ('0' <= ch && ch <= '9') || ch == '_' || ch == '-') {
        return false;
      }
    }
    return true;
  }

  predicate EventAccepted(events: seq<Event>, i: nat)
    requires i < |events|
  {
    && events[i].intact
    && events[i].previous == (if i == 0 then None else Some(events[i - 1].hash))
    && forall j | 0 <= j < i :: events[j].id != events[i].id
  }

  predicate LogIsSound(events: seq<Event>) {
    && (forall i | 0 <= i < |events| :: EventAccepted(events, i))
    && (forall i | 0 <= i < |events| && events[i].parent.Some? :: exists j | 0 <= j < |events| ::
         events[j].id == events[i].parent.value)
  }

  predicate BranchesDiffer(branches: seq<LegacyBranch>) {
    forall i, j | 0 <= i < j < |branches| :: branches[i].name != branches[j].name
  }

  function ParentsOf(events: seq<Event>): Parents {
    if events == [] then map[]
    else
      var last := |events| - 1;
      ParentsOf(events[..last])[events[last].id := events[last].parent]
  }

  lemma {:induction false} ParentsAreEvents(events: seq<Event>, x: Id)
    ensures x in ParentsOf(events) <==> exists i :: 0 <= i < |events| && events[i].id == x
  {
    if events != [] {
      var last := |events| - 1;
      ParentsAreEvents(events[..last], x);
      if i :| 0 <= i < |events| && events[i].id == x && i < last {
        assert events[..last][i].id == x;
      }
    }
  }

  function TipsOf(branches: seq<LegacyBranch>): Tips {
    if branches == [] then map[]
    else
      var last := |branches| - 1;
      TipsOf(branches[..last])[branches[last].name := branches[last].tip]
  }

  lemma {:induction false} TipsAreBranches(branches: seq<LegacyBranch>, x: Id)
    ensures x in TipsOf(branches) <==> exists i :: 0 <= i < |branches| && branches[i].name == x
  {
    if branches != [] {
      var last := |branches| - 1;
      TipsAreBranches(branches[..last], x);
      if i :| 0 <= i < |branches| && branches[i].name == x && i < last {
        assert branches[..last][i].name == x;
      }
    }
  }

  function ReplayPath(s: Legacy, path: seq<Id>): Option<Doc> {
    if path == [] then Some(s.base)
    else
      var before :- ReplayPath(s, path[..|path| - 1]);
      s.replay(before, path[|path| - 1])
  }

  /** The legacy document at an event: its ancestry replayed on the base. */
  function Materialized(s: Legacy, at: Option<Id>): Option<Doc> {
    match Ancestors(ParentsOf(s.events), at, {})
    case Err => None
    case Ok(path) => ReplayPath(s, path)
  }

  /** Every branch tip has a finite ancestry. */
  predicate Rooted(s: Legacy) {
    var parents := ParentsOf(s.events);
    forall b | b in TipsOf(s.branches) :: Path(parents, TipsOf(s.branches), b).Ok?
  }

  /** No event lies outside every branch. */
  predicate NoOrphans(s: Legacy)
    requires Rooted(s)
  {
    var parents := ParentsOf(s.events);
    forall x | x in parents :: exists b | b in TipsOf(s.branches) :: x in Path(parents, TipsOf(s.branches), b).value
  }

  predicate Importable(s: Legacy) {
    && ValidSessionId(s.session) && s.frozen
    && LogIsSound(s.events) && BranchesDiffer(s.branches) && s.current in TipsOf(s.branches)
    && Rooted(s) && NoOrphans(s)
    && (forall x | x in ParentsOf(s.events) :: Materialized(s, Some(x)).Some?)
    && (s.head.Some? ==> s.head.value in ParentsOf(s.events))
  }

  // ---- synthetic names ----

  function HexDigit(n: nat): char
    requires n < 16
  {
    "0123456789abcdef"[n]
  }

  /** Lower-case hexadecimal, zero-padded to a width. */
  function Hex(n: nat, width: nat): string
    decreases n + width
  {
    if n == 0 && width == 0 then ""
    else Hex(n / 16, if width > 0 then width - 1 else 0) + [HexDigit(n % 16)]
  }

  lemma HexLast(n: nat, width: nat)
    requires n > 0 || width > 0
    ensures
      var text := Hex(n, width);
      text != "" && text[..|text| - 1] == Hex(n / 16, if width > 0 then width - 1 else 0)
        && text[|text| - 1] == HexDigit(n % 16)
  {
  }

  lemma HexDigitsDiffer(m: nat, n: nat)
    requires m < 16 && n < 16 && HexDigit(m) == HexDigit(n)
    ensures m == n
  {
  }

  lemma {:induction false} HexIsInjective(m: nat, n: nat, v: nat, w: nat)
    requires Hex(m, v) == Hex(n, w)
    ensures m == n
    decreases m + v
  {
    if (m == 0 && v == 0) || (n == 0 && w == 0) {
      assert Hex(m, v) == "";
    } else {
      HexLast(m, v);
      HexLast(n, w);
      HexDigitsDiffer(m % 16, n % 16);
      hide Hex, HexDigit;
      HexIsInjective(m / 16, n / 16, if v > 0 then v - 1 else 0, if w > 0 then w - 1 else 0);
    }
  }

  const CONTROL_PREFIX := "import_control_"

  function ControlId(n: nat): Id {
    CONTROL_PREFIX + Hex(n, 16)
  }

  function Epoch(s: Legacy): string {
    "legacy-import:" + s.session
  }

  // ---- the stream as it grows ----

  datatype Draft = Draft(
    records: seq<Record>, branch: Id, head: Option<Id>, branches: map<Id, Option<Id>>, document: nat, state: nat)

  function LastHead(js: seq<Record>): Option<Id> {
    if js == [] then None else js[|js| - 1].head
  }

  function LastCommit(js: seq<Record>): Option<Id> {
    if js == [] then None else Some(js[|js| - 1].commitId)
  }

  /** One synthetic record, which leaves the draft at the head, branch and branches it names. */
  function Controlled(
    s: Legacy, d: Draft, t: Transition, e: Effects, head: Option<Id>, branch: Id,
    branches: map<Id, Option<Id>>): Draft {
    var moves := t.Undo? || t.Checkout? || (t.BranchSwitch? && LastHead(d.records) != head);
    var document, state := if moves then d.document + 1 else d.document, d.state + 1;
    var id := ControlId(state);
    Draft(
      d.records + [Record(
        s.session, id, LastCommit(d.records), None, s.base, "legacy_control_" + id, ImportPrint(id), t, e,
        head, branch, branches, 0, Revision(Epoch(s), document, state))],
      branch, head, branches, document, state)
  }

  /** One event's record, holding the documents on both sides of it. */
  function Committed(s: Legacy, d: Draft, event: Event, before: Doc, after: Doc): Draft {
    var was, revision := Revision(Epoch(s), d.document, d.state), Revision(Epoch(s), d.document + 1, d.state + 1);
    var p := Prepared(
      s.base, Response(WasApplied, Apply, true, was, revision, 1, [], None),
      Snapshot(Blank(before), after, Invalidate), None, None);
    var branches := d.branches[d.branch := Some(event.id)];
    Draft(
      d.records + [Record(
        s.session, event.id, if LastCommit(d.records) == Some(event.id) then None
          else LastCommit(d.records), event.parent,
        s.base, "legacy_event_" + event.id, ImportPrint(event.hash), Mutation, NoEffects.(prepared := Some(p)),
        Some(event.id), d.branch, branches, 0, revision)],
      d.branch, Some(event.id), branches, d.document + 1, d.state + 1)
  }

  // ---- names never clash ----

  /** Commit identities that replay can accept: none empty, none twice. */
  predicate Clean(js: seq<Record>) {
    && (forall i | 0 <= i < |js| :: js[i].commitId != "")
    && (forall i, j | 0 <= i < j < |js| :: js[i].commitId != js[j].commitId)
  }

  predicate Named(js: seq<Record>) {
    forall i | 0 <= i < |js| ::
      if js[i].transition.Mutation? then js[i].requestId == "legacy_event_" + js[i].commitId
      else js[i].commitId == ControlId(i + 1) && js[i].requestId == "legacy_control_" + js[i].commitId
  }

  lemma RequestsDiffer(js: seq<Record>, i: nat, j: nat)
    requires Named(js) && i < |js| && j < |js| && js[i].commitId != js[j].commitId
    ensures js[i].requestId != js[j].requestId
  {
    var a, b := js[i], js[j];
    if a.transition.Mutation? && b.transition.Mutation? {
      assert a.requestId[13..] == a.commitId && b.requestId[13..] == b.commitId;
    } else if !a.transition.Mutation? && !b.transition.Mutation? {
      assert a.requestId[15..] == a.commitId && b.requestId[15..] == b.commitId;
    } else {
      assert a.requestId[7] != b.requestId[7];
    }
  }

  // ---- replay follows the draft ----

  /** What replay has made of the records so far. */
  ghost predicate Reflects(h: HistoryState, s: Legacy, d: Draft, parents: Parents) {
    && h.head == d.head && h.branch == d.branch && h.branches == d.branches && h.parents == parents
    && h.generation == 0 && h.tip == LastCommit(d.records)
    && h.revision == (if d.records == [] then None else Some(Revision(Epoch(s), d.document, d.state)))
    && (forall v | v in h.visible :: v.0.state <= d.state)
  }

  ghost predicate Follows(s: Legacy, d: Draft, parents: Parents) {
    && d.state == |d.records| && Named(d.records) && LastHead(d.records) == d.head
    && (d.records == [] ==> d.document == 0)
    && (Clean(d.records) ==>
          Replay(s.session, s.base, d.records).Some?
            && Reflects(Replay(s.session, s.base, d.records).value, s, d, parents))
  }

  lemma NewNames(s: Legacy, js: seq<Record>, r: Record)
    requires Replay(s.session, s.base, js).Some?
    requires Named(js + [r]) && Clean(js + [r])
    ensures r.commitId !in Replay(s.session, s.base, js).value.commitIds
    ensures r.requestId !in Replay(s.session, s.base, js).value.requestIds && r.requestId != ""
  {
    var all := js + [r];
    HistoryTreeIsSound(s.session, s.base, js);
    RequestIdsAreListed(s.session, s.base, js);
    assert all[|js|] == r;
    forall i | 0 <= i < |js| ensures js[i].commitId != r.commitId && js[i].requestId != r.requestId {
      assert all[i] == js[i];
      RequestsDiffer(all, i, |js|);
    }
  }

  lemma CleanPrefix(js: seq<Record>, r: Record)
    requires Clean(js + [r])
    ensures Clean(js)
  {
    assert forall i | 0 <= i < |js| :: (js + [r])[i] == js[i];
  }

  lemma AdmitsControl(s: Legacy, d: Draft, h: HistoryState, t: Transition, e: Effects, moved: HistoryState)
    requires Reflects(h, s, d, h.parents) && h.session == s.session && h.base == s.base
    requires d.records == [] ==> d.document == 0
    requires LastHead(d.records) == d.head
    requires t.Undo? || t.Checkout? || t.BranchCreate? || t.BranchSwitch?
    requires e.prepared.None? && e.outcome.None?
    ensures
      var d' := Controlled(s, d, t, e, moved.head, moved.branch, moved.branches);
      var r := d'.records[|d.records|];
      && (Advance(h, r) == Some(moved) && moved.generation == 0 && moved.visible == h.visible
           && moved.parents == h.parents
          && r.commitId != "" && r.commitId !in h.commitIds && r.requestId != "" && r.requestId !in h.requestIds ==>
            Admit(h, r).Some? && Reflects(Admit(h, r).value, s, d', h.parents))
  {
    hide Advance, Hex;
  }

  /** The checks replay makes of the four synthetic transitions, read off the draft. */
  predicate ControlAllowed(
    d: Draft, parents: Parents, t: Transition, e: Effects, head: Option<Id>, branch: Id, branches: map<Id, Option<Id>>)
  {
    match t
    case Checkout =>
      e.target == Some(head) && branch == d.branch && branches == d.branches && (head.Some? ==> head.value in parents)
    case Undo =>
      && e.target == Some(head) && branch == d.branch && branches == d.branches
      && head == (if d.head.Some? && d.head.value in parents then parents[d.head.value] else None)
    case BranchCreate =>
      && e == NoEffects.(branchName := e.branchName) && e.branchName.Some? && e.branchName.value !in d.branches
      && head == d.head && branch == d.branch && branches == d.branches[e.branchName.value := d.head]
    case BranchSwitch =>
      && e.branchName == Some(branch) && branch in d.branches && head == d.branches[branch] && branches == d.branches
    case _ => false
  }

  lemma ControlAdvances(
    s: Legacy, d: Draft, h: HistoryState, t: Transition, e: Effects, head: Option<Id>, branch: Id,
    branches: map<Id, Option<Id>>)
    requires Reflects(h, s, d, h.parents)
    requires ControlAllowed(d, h.parents, t, e, head, branch, branches)
    ensures
      var r := Controlled(s, d, t, e, head, branch, branches).records[|d.records|];
      Advance(h, r) == Some(h.(head := head, branch := branch, branches := branches))
  {
  }

  lemma ControlIsNamed(
    s: Legacy, d: Draft, t: Transition, e: Effects, head: Option<Id>, branch: Id, branches: map<Id, Option<Id>>)
    requires Named(d.records) && d.state == |d.records| && !t.Mutation?
    ensures
      var d' := Controlled(s, d, t, e, head, branch, branches);
      Named(d'.records) && d'.state == |d'.records| && LastHead(d'.records) == head
  {
    hide Hex;
  }

  lemma ControlFollows(
    s: Legacy, d: Draft, parents: Parents, t: Transition, e: Effects, head: Option<Id>, branch: Id,
    branches: map<Id, Option<Id>>)
    requires Follows(s, d, parents)
    requires e.prepared.None? && e.outcome.None?
    requires ControlAllowed(d, parents, t, e, head, branch, branches)
    ensures Follows(s, Controlled(s, d, t, e, head, branch, branches), parents)
  {
    ControlIsNamed(s, d, t, e, head, branch, branches);
    hide Admit, Advance, Replay, Hex, Named;
    var d' := Controlled(s, d, t, e, head, branch, branches);
    var r := d'.records[|d.records|];
    assert d'.records == d.records + [r] && d'.records[..|d.records|] == d.records;
    if Clean(d'.records) {
      CleanPrefix(d.records, r);
      NewNames(s, d.records, r);
      var h := Replay(s.session, s.base, d.records).value;
      ControlAdvances(s, d, h, t, e, head, branch, branches);
      AdmitsControl(s, d, h, t, e, h.(head := head, branch := branch, branches := branches));
      ReplayAppends(s.session, s.base, d.records, r);
    }
  }

  lemma AdmitsEvent(s: Legacy, d: Draft, h: HistoryState, event: Event, before: Doc, after: Doc)
    requires Reflects(h, s, d, h.parents) && h.session == s.session && h.base == s.base
    requires d.records == [] ==> d.document == 0 && d.state == 0
    requires event.parent == d.head && LastCommit(d.records) != Some(event.id)
    requires event.id != "" && event.id !in h.commitIds && "legacy_event_" + event.id !in h.requestIds
    ensures
      var d' := Committed(s, d, event, before, after);
      var r := d'.records[|d.records|];
      Admit(h, r).Some? && Reflects(Admit(h, r).value, s, d', h.parents[event.id := event.parent])
  {
    var r := Committed(s, d, event, before, after).records[|d.records|];
    assert PublishDocument(h, r) == Some(h.(
      parents := h.parents[event.id := event.parent], head := Some(event.id),
        branches := h.branches[h.branch := Some(event.id)]));
    assert ValidPrepared(r, h.revision);
  }

  lemma EventFollows(s: Legacy, d: Draft, parents: Parents, event: Event, before: Doc, after: Doc)
    requires Follows(s, d, parents) && event.parent == d.head
    ensures Follows(s, Committed(s, d, event, before, after), parents[event.id := event.parent])
  {
    hide Admit, Advance, Replay;
    var d' := Committed(s, d, event, before, after);
    var r := d'.records[|d.records|];
    assert d'.records == d.records + [r] && d'.records[..|d.records|] == d.records;
    if Clean(d'.records) {
      CleanPrefix(d.records, r);
      NewNames(s, d.records, r);
      ReplayAppends(s.session, s.base, d.records, r);
      if d.records != [] {
        assert d'.records[|d.records| - 1] == d.records[|d.records| - 1];
      }
      AdmitsEvent(s, d, Replay(s.session, s.base, d.records).value, event, before, after);
    }
  }

  // ---- what the records keep of the events ----

  /** Documents on both sides of the event, as the legacy session computes them. */
  predicate Genuine(s: Legacy, r: Record) {
    var parents := ParentsOf(s.events);
    && (r.transition.Mutation? ==>
          && r.commitId in parents && r.historyParent == parents[r.commitId]
          && (exists e | e in s.events :: e.id == r.commitId && r.fingerprint == ImportPrint(e.hash))
          && Materialized(s, r.historyParent).Some? && Materialized(s, Some(r.commitId)).Some?
          && r.effects.prepared.Some?
          && r.effects.prepared.value.publication
               == Snapshot(Blank(Materialized(s, r.historyParent).value), Materialized(s, Some(r.commitId)).value,
                 Invalidate))
    && (!r.transition.Mutation? ==> !Publishes(r))
  }

  predicate AllGenuine(s: Legacy, js: seq<Record>) {
    forall i | 0 <= i < |js| :: Genuine(s, js[i])
  }

  /** Event records name listed events, each at most once. */
  predicate EventsOnce(js: seq<Record>, done: seq<Id>) {
    && (forall i | 0 <= i < |js| && js[i].transition.Mutation? :: js[i].commitId in done)
    && (forall i, j | 0 <= i < j < |js| && js[i].transition.Mutation? && js[j].transition.Mutation? ::
         js[i].commitId != js[j].commitId)
  }

  lemma ReplayedIsClean(s: Legacy, js: seq<Record>)
    requires Replay(s.session, s.base, js).Some?
    ensures Clean(js)
  {
    forall i | 0 <= i < |js| ensures js[i].commitId != "" {
      ReplayPrefix(s.session, s.base, js, i + 1);
      assert js[..i + 1][i] == js[i];
    }
    forall i, j | 0 <= i < j < |js| ensures js[i].commitId != js[j].commitId {
      if js[i].commitId == js[j].commitId {
        CommitsAreUnique(s.session, s.base, js, i, j);
      }
    }
  }

  // ---- reading the log and the branches ----

  lemma NoParents(events: seq<Event>)
    ensures events == [] ==> ParentsOf(events) == map[]
  {
  }

  lemma ParentsStep(events: seq<Event>, i: nat)
    requires i < |events|
    ensures ParentsOf(events[..i + 1]) == ParentsOf(events[..i])[events[i].id := events[i].parent]
    ensures events[..i + 1][..i] == events[..i]
  {
    assert events[..i + 1][..i] == events[..i];
  }

  method ReadLog(events: seq<Event>) returns (byId: Option<map<Id, Event>>)
    ensures byId.Some? <==> LogIsSound(events)
    ensures byId.Some? ==> byId.value.Keys == ParentsOf(events).Keys
    ensures byId.Some? ==>
      forall x | x in byId.value ::
        byId.value[x].id == x && byId.value[x].parent == ParentsOf(events)[x] && byId.value[x] in events
  {
    hide ParentsOf;
    var found: map<Id, Event>, previous: Option<string> := map[], None;
    NoParents(events[..0]);
    for i := 0 to |events|
      invariant found.Keys == ParentsOf(events[..i]).Keys
      invariant forall x | x in found ::
        found[x].id == x && found[x].parent == ParentsOf(events[..i])[x] && found[x] in events
      invariant previous == if i == 0 then None else Some(events[i - 1].hash)
      invariant forall j | 0 <= j < i :: EventAccepted(events, j)
    {
      ParentsStep(events, i);
      ParentsAreEvents(events[..i], events[i].id);
      if !events[i].intact || events[i].previous != previous {
        assert !EventAccepted(events, i);
        return None;
      }
      previous := Some(events[i].hash);
      if events[i].id in found {
        assert !EventAccepted(events, i);
        return None;
      }
      found := found[events[i].id := events[i]];
    }
    assert events[..|events|] == events;
    for i := 0 to |events|
      invariant forall k | 0 <= k < i && events[k].parent.Some? :: exists j | 0 <= j < |events| ::
        events[j].id == events[k].parent.value
    {
      if events[i].parent.Some? {
        ParentsAreEvents(events, events[i].parent.value);
        if events[i].parent.value !in found {
          return None;
        }
      }
    }
    return Some(found);
  }

  /** The order of a tree map's keys. */
  predicate Below(a: Id, b: Id) {
    b != "" && (a == "" || a[0] < b[0] || (a[0] == b[0] && Below(a[1..], b[1..])))
  }

  function InsertName(names: seq<Id>, name: Id): (r: seq<Id>)
    ensures forall x :: x in r <==> x in names || x == name
  {
    if names == [] then [name]
    else if Below(name, names[0]) then [name] + names
    else [names[0]] + InsertName(names[1..], name)
  }

  lemma {:induction false} InsertKeepsDistinct(names: seq<Id>, name: Id)
    requires Distinct(names) && name !in names
    ensures Distinct(InsertName(names, name))
  {
    if names != [] && !Below(name, names[0]) {
      InsertKeepsDistinct(names[1..], name);
      var rest := InsertName(names[1..], name);
      assert names[0] !in rest;
    }
  }

  /** At this place one text ends or has the smaller character, everything before it being the same. */
  predicate FallsBelowAt(a: Id, b: Id, k: nat) {
    k <= |a| && k < |b| && a[..k] == b[..k] && (k == |a| || a[k] < b[k])
  }

  lemma SameFront(a: Id, b: Id, k: nat)
    requires 0 < k <= |a| && k <= |b|
    ensures a[..k] == b[..k] <==> a[0] == b[0] && a[1..][..k - 1] == b[1..][..k - 1]
  {
    assert a[..k] == [a[0]] + a[1..][..k - 1] && b[..k] == [b[0]] + b[1..][..k - 1];
  }

  /** The order is lexicographic, character by character. */
  lemma {:induction false} BelowIsLexicographic(a: Id, b: Id)
    ensures Below(a, b) <==> exists k: nat :: FallsBelowAt(a, b, k)
  {
    if b != "" {
      if a != "" && a[0] == b[0] {
        BelowIsLexicographic(a[1..], b[1..]);
      }
      if k: nat :| FallsBelowAt(a, b, k) {
        if k > 0 {
          SameFront(a, b, k);
          assert FallsBelowAt(a[1..], b[1..], k - 1);
        }
      }
      if Below(a, b) {
        if a == "" || a[0] < b[0] {
          assert FallsBelowAt(a, b, 0);
        } else {
          var k: nat :| FallsBelowAt(a[1..], b[1..], k);
          SameFront(a, b, k + 1);
          assert FallsBelowAt(a, b, k + 1);
        }
      }
    }
  }

  lemma {:induction false} BelowChains(a: Id, b: Id, d: Id)
    requires Below(a, b) && Below(b, d)
    ensures Below(a, d)
  {
    if a != "" && a[0] == b[0] && b[0] == d[0] {
      BelowChains(a[1..], b[1..], d[1..]);
    }
  }

  lemma {:induction false} BelowDecides(a: Id, b: Id)
    requires a != b
    ensures Below(a, b) || Below(b, a)
  {
    if a != "" && b != "" && a[0] == b[0] {
      assert a == [a[0]] + a[1..] && b == [b[0]] + b[1..];
      BelowDecides(a[1..], b[1..]);
    }
  }

  predicate Ascending(names: seq<Id>) {
    forall i, j | 0 <= i < j < |names| :: Below(names[i], names[j])
  }

  lemma {:induction false} InsertKeepsAscending(names: seq<Id>, name: Id)
    requires Ascending(names) && name !in names
    ensures Ascending(InsertName(names, name))
  {
    hide Below;
    if names != [] {
      if Below(name, names[0]) {
        forall j | 0 <= j < |names| ensures Below(name, names[j]) {
          if j > 0 {
            BelowChains(name, names[0], names[j]);
          }
        }
      } else {
        BelowDecides(name, names[0]);
        InsertKeepsAscending(names[1..], name);
        var rest := InsertName(names[1..], name);
        forall j | 0 <= j < |rest| ensures Below(names[0], rest[j]) {
          assert rest[j] in rest;
        }
      }
    }
  }

  /** The branches other than `main` are taken in ascending order of their names. */
  lemma {:induction false} OrderAscends(branches: seq<LegacyBranch>)
    requires BranchesDiffer(branches)
    ensures Ascending(OthersOf(branches)) && OrderOf(branches) == ["main"] + OthersOf(branches)
    ensures forall x :: x in OthersOf(branches) <==> x != "main" && x in TipsOf(branches)
  {
    if branches != [] {
      var older, last := branches[..|branches| - 1], branches[|branches| - 1];
      OrderAscends(older);
      TipsAreBranches(older, last.name);
      assert last.name !in TipsOf(older);
      if last.name != MAIN {
        InsertKeepsAscending(OthersOf(older), last.name);
      }
    }
  }

  /** `main` and then every other branch name, once each. */
  ghost predicate IsOrder(order: seq<Id>, tips: Tips) {
    order != [] && order[0] == MAIN && Distinct(order) && forall x :: x in order <==> x == MAIN || x in tips
  }

  /** The names other than `main`, in the order of a tree map. */
  function OthersOf(branches: seq<LegacyBranch>): seq<Id> {
    if branches == [] then []
    else
      var name := branches[|branches| - 1].name;
      var older := OthersOf(branches[..|branches| - 1]);
      if name == MAIN then older else InsertName(older, name)
  }

  function OrderOf(branches: seq<LegacyBranch>): seq<Id> {
    [MAIN] + OthersOf(branches)
  }

  lemma MainComesFirst(tips: Tips, others: seq<Id>)
    requires Distinct(others) && forall x :: x in others <==> x in tips && x != MAIN
    ensures IsOrder([MAIN] + others, tips)
  {
    forall k | 0 <= k < |others| ensures others[k] != MAIN {
      assert others[k] in others;
    }
  }

  method ReadBranches(branches: seq<LegacyBranch>) returns (r: Option<(Tips, seq<Id>)>)
    ensures r.Some? <==> BranchesDiffer(branches)
    ensures r.Some? ==> r.value.0 == TipsOf(branches) && r.value.1 == OrderOf(branches) && IsOrder(r.value.1, r.value.0)
  {
    hide InsertName;
    var tips: Tips, others: seq<Id> := map[], [];
    for i := 0 to |branches|
      invariant tips == TipsOf(branches[..i]) && others == OthersOf(branches[..i]) && BranchesDiffer(branches[..i])
      invariant Distinct(others) && forall x :: x in others <==> x in tips && x != MAIN
    {
      assert branches[..i + 1][..i] == branches[..i];
      TipsAreBranches(branches[..i], branches[i].name);
      if branches[i].name in tips {
        return None;
      }
      if branches[i].name != MAIN {
        InsertKeepsDistinct(others, branches[i].name);
        others := InsertName(others, branches[i].name);
      }
      tips := tips[branches[i].name := branches[i].tip];
    }
    assert branches[..|branches|] == branches;
    MainComesFirst(tips, others);
    return Some((tips, [MAIN] + others));
  }

  // ---- every event has a place ----

  lemma RootedIsListed(parents: Parents, tips: Tips, order: seq<Id>)
    requires IsOrder(order, tips)
    ensures Listed(parents, tips, order).Ok? <==> forall b | b in tips :: Path(parents, tips, b).Ok?
  {
    if Listed(parents, tips, order).Ok? {
      forall b | b in tips ensures Path(parents, tips, b).Ok? {
        var k :| 0 <= k < |order| && order[k] == b;
        PathIsListed(parents, tips, order, k, b);
      }
    }
    if forall b | b in tips :: Path(parents, tips, b).Ok? {
      forall k | 0 <= k < |order| ensures Path(parents, tips, order[k]).Ok? {
        assert order[k] in order;
      }
      AllPathsList(parents, tips, order);
    }
  }

  lemma {:induction false} AllPathsList(parents: Parents, tips: Tips, order: seq<Id>)
    requires forall k | 0 <= k < |order| :: Path(parents, tips, order[k]).Ok?
    ensures Listed(parents, tips, order).Ok?
  {
    if order != [] {
      AllPathsList(parents, tips, order[..|order| - 1]);
    }
  }

  lemma {:induction false} ListedIsOnPath(parents: Parents, tips: Tips, order: seq<Id>, x: Id) returns (k: nat)
    requires Listed(parents, tips, order).Ok? && x in Listed(parents, tips, order).value
    ensures k < |order| && Path(parents, tips, order[k]).Ok? && x in Path(parents, tips, order[k]).value
  {
    var last := |order| - 1;
    MissingIsWithin(Path(parents, tips, order[last]).value, Listed(parents, tips, order[..last]).value);
    if x in Listed(parents, tips, order[..last]).value {
      k := ListedIsOnPath(parents, tips, order[..last], x);
    } else {
      k := last;
    }
  }

  lemma {:induction false} SetOfDistinct(ids: seq<Id>)
    requires Distinct(ids)
    ensures |set x | x in ids| == |ids|
  {
    if ids != [] {
      var front, last := ids[..|ids| - 1], ids[|ids| - 1];
      SetOfDistinct(front);
      assert (set x | x in ids) == (set x | x in front) + {last};
    }
  }

  lemma {:induction false} CountParents(events: seq<Event>)
    requires forall i | 0 <= i < |events| :: EventAccepted(events, i)
    ensures |ParentsOf(events)| == |events|
  {
    if events != [] {
      var last := |events| - 1;
      var front := events[..last];
      forall i | 0 <= i < |front| ensures EventAccepted(front, i) {
        assert EventAccepted(events, i);
        assert forall j | 0 <= j <= i :: front[j] == events[j];
      }
      CountParents(front);
      assert EventAccepted(events, last);
      ParentsAreEvents(front, events[last].id);
    }
  }

  lemma OnSomeBranch(parents: Parents, tips: Tips, order: seq<Id>, x: Id)
    requires IsOrder(order, tips) && Listed(parents, tips, order).Ok? && x in Listed(parents, tips, order).value
    ensures exists b | b in tips :: Path(parents, tips, b).Ok? && x in Path(parents, tips, b).value
  {
    var k := ListedIsOnPath(parents, tips, order, x);
    assert order[k] in order;
  }

  lemma OnBranchIsListed(parents: Parents, tips: Tips, order: seq<Id>, b: Id, x: Id)
    requires IsOrder(order, tips) && Listed(parents, tips, order).Ok? && b in tips
    ensures Path(parents, tips, b).Ok?
    ensures x in Path(parents, tips, b).value ==> x in Listed(parents, tips, order).value
  {
    var k :| 0 <= k < |order| && order[k] == b;
    PathIsListed(parents, tips, order, k, x);
    ListedPrefix(parents, tips, order, k + 1);
  }

  /** Counting settles it: as many listed ids as events means every event is on some branch. */
  lemma CountIsCoverage(s: Legacy, tips: Tips, order: seq<Id>)
    requires LogIsSound(s.events) && tips == TipsOf(s.branches) && IsOrder(order, tips) && Rooted(s)
    requires Listed(ParentsOf(s.events), tips, order).Ok?
    ensures
      var all := Listed(ParentsOf(s.events), tips, order).value;
      && (|all| == |s.events| <==> NoOrphans(s))
      && (|all| == |s.events| ==> forall x | x in ParentsOf(s.events) :: x in all)
  {
    hide Listed, Path, ParentsOf, TipsOf, IsOrder;
    var parents := ParentsOf(s.events);
    var all := Listed(parents, tips, order).value;
    ListIsOrdered(parents, tips, order);
    SetOfDistinct(all);
    CountParents(s.events);
    hide Distinct;
    var listed := set x | x in all;
    assert listed <= parents.Keys;
    if |all| == |s.events| {
      Saturated(listed, parents.Keys);
      forall x | x in parents ensures exists b | b in tips :: x in Path(parents, tips, b).value {
        OnSomeBranch(parents, tips, order, x);
      }
    }
    if NoOrphans(s) {
      forall x | x in parents ensures x in all {
        var b :| b in tips && x in Path(parents, tips, b).value;
        OnBranchIsListed(parents, tips, order, b, x);
      }
      assert listed == parents.Keys;
    }
  }

  lemma Saturated<T>(a: set<T>, b: set<T>)
    requires a <= b && |a| == |b|
    ensures a == b
  {
    assert |b - a| == 0;
  }

  // ---- the shape of what is written ----

  function LayoutOf(s: Legacy): Layout {
    Layout(ParentsOf(s.events), TipsOf(s.branches), OrderOf(s.branches))
  }

  function ShapeOf(js: seq<Record>): Shape {
    seq(|js|, i requires 0 <= i < |js| => if js[i].transition.Mutation? then Some(js[i].commitId) else None)
  }

  lemma ControlShape(
    s: Legacy, d: Draft, t: Transition, e: Effects, head: Option<Id>, branch: Id, branches: map<Id, Option<Id>>)
    requires !t.Mutation?
    ensures ShapeOf(Controlled(s, d, t, e, head, branch, branches).records) == ShapeOf(d.records) + Blanks(1)
  {
  }

  lemma EventShape(s: Legacy, d: Draft, event: Event, before: Doc, after: Doc)
    ensures ShapeOf(Committed(s, d, event, before, after).records) == ShapeOf(d.records) + [Some(event.id)]
  {
  }

  lemma BlanksAdd(shape: Shape, m: nat, n: nat)
    ensures shape + Blanks(m) + Blanks(n) == shape + Blanks(m + n)
    ensures shape + Blanks(0) == shape
  {
  }

  /** The draft has the shape of the events so far and stands on the branch of the last of them. */
  ghost predicate Tracks(s: Legacy, d: Draft, ids: seq<Id>) {
    && ShapeOf(d.records) == EventsShape(LayoutOf(s), ids)
    && d.branch == BranchAfter(LayoutOf(s), ids) && d.branches.Keys == BranchesAfter(LayoutOf(s), ids)
  }

  /** The same with the synthetic records before the event `x` written as well. */
  ghost predicate Leads(s: Legacy, d: Draft, ids: seq<Id>, x: Id) {
    && ShapeOf(d.records) == EventsShape(LayoutOf(s), ids) + Blanks(Lead(LayoutOf(s), ids, x))
    && d.branch == BranchOwning(LayoutOf(s), x)
         && d.branches.Keys == BranchesAfter(LayoutOf(s), ids) + {BranchOwning(LayoutOf(s), x)}
  }

  lemma OwnBranchIsKnown(l: Layout, ids: seq<Id>)
    ensures BranchAfter(l, ids) in BranchesAfter(l, ids)
  {
  }

  lemma EventTracks(s: Legacy, d: Draft, ids: seq<Id>, event: Event, before: Doc, after: Doc)
    requires Leads(s, d, ids, event.id)
    ensures Tracks(s, Committed(s, d, event, before, after), ids + [event.id])
  {
    hide LayoutOf, EventsShape, BranchesAfter;
    EventShape(s, d, event, before, after);
    ShapeOfNext(LayoutOf(s), ids, event.id);
    OwnBranchIsKnown(LayoutOf(s), ids + [event.id]);
  }

  // ---- writing the stream ----

  function Restrict(parents: Parents, done: seq<Id>): Parents {
    map x | x in done && x in parents :: parents[x]
  }

  lemma RestrictGrows(parents: Parents, all: seq<Id>, i: nat)
    requires i < |all| && all[i] in parents
    ensures Restrict(parents, all[..i + 1]) == Restrict(parents, all[..i])[all[i] := parents[all[i]]]
  {
    assert all[..i + 1] == all[..i] + [all[i]];
  }

  /** The facts about the log that writing relies on, gathered once. */
  ghost predicate Plan(s: Legacy, tips: Tips, order: seq<Id>, all: seq<Id>) {
    && tips == TipsOf(s.branches) && order == OrderOf(s.branches) && IsOrder(order, tips)
    && Listed(ParentsOf(s.events), tips, order) == Ok(all)
    && (forall x | x in ParentsOf(s.events) :: x in all)
  }

  /** Everything written so far is right, the first `n` listed events being in. */
  ghost predicate Written(s: Legacy, d: Draft, all: seq<Id>, n: nat)
    requires n <= |all|
  {
    && Follows(s, d, Restrict(ParentsOf(s.events), all[..n]))
    && AllGenuine(s, d.records) && EventsOnce(d.records, all[..n])
  }

  lemma ControlIsWritten(
    s: Legacy, d: Draft, all: seq<Id>, n: nat, t: Transition, e: Effects, head: Option<Id>, branch: Id,
    branches: map<Id, Option<Id>>)
    requires n <= |all| && Written(s, d, all, n)
    requires e.prepared.None? && e.outcome.None?
    requires ControlAllowed(d, Restrict(ParentsOf(s.events), all[..n]), t, e, head, branch, branches)
    ensures
      var d' := Controlled(s, d, t, e, head, branch, branches);
      Written(s, d', all, n) && d'.head == head && d'.branch == branch && d'.branches == branches
  {
    ControlFollows(s, d, Restrict(ParentsOf(s.events), all[..n]), t, e, head, branch, branches);
  }

  lemma RecordsExtend(s: Legacy, js: seq<Record>, r: Record, done: seq<Id>)
    requires AllGenuine(s, js) && EventsOnce(js, done)
    requires Genuine(s, r) && r.transition.Mutation? && r.commitId !in done
    ensures AllGenuine(s, js + [r]) && EventsOnce(js + [r], done + [r.commitId])
  {
    hide Genuine;
  }

  lemma EventIsWritten(s: Legacy, d: Draft, all: seq<Id>, n: nat, event: Event)
    requires n < |all| && Distinct(all) && all[n] == event.id && event in s.events
    requires event.id in ParentsOf(s.events) && event.parent == ParentsOf(s.events)[event.id]
    requires Written(s, d, all, n) && event.parent == d.head
    requires Materialized(s, event.parent).Some? && Materialized(s, Some(event.id)).Some?
    ensures
      var d' := Committed(s, d, event, Materialized(s, event.parent).value, Materialized(s, Some(event.id)).value);
      Written(s, d', all, n + 1) && d'.branch == d.branch && d'.head == Some(event.id)
        && d'.branches == d.branches[d.branch := d'.head]
  {
    hide Follows, Materialized, ParentsOf;
    var before, after := Materialized(s, event.parent).value, Materialized(s, Some(event.id)).value;
    EventFollows(s, d, Restrict(ParentsOf(s.events), all[..n]), event, before, after);
    RestrictGrows(ParentsOf(s.events), all, n);
    var d' := Committed(s, d, event, before, after);
    assert all[..n + 1] == all[..n] + [event.id];
    var r := d'.records[|d.records|];
    assert Genuine(s, r);
    RecordsExtend(s, d.records, r, all[..n]);
  }

  method Materialize(s: Legacy, at: Option<Id>) returns (doc: Option<Doc>)
    ensures doc == Materialized(s, at)
  {
    var path := AncestryOf(ParentsOf(s.events), at);
    if path.Err? {
      return None;
    }
    var rebuilt := s.base;
    for i := 0 to |path.value|
      invariant ReplayPath(s, path.value[..i]) == Some(rebuilt)
    {
      assert path.value[..i + 1][..i] == path.value[..i];
      var next := s.replay(rebuilt, path.value[i]);
      if next.None? {
        ReplayStops(s, path.value, i + 1);
        return None;
      }
      rebuilt := next.value;
    }
    assert path.value[..|path.value|] == path.value;
    return Some(rebuilt);
  }

  lemma {:induction false} ReplayStops(s: Legacy, path: seq<Id>, n: nat)
    requires n <= |path| && ReplayPath(s, path[..n]).None?
    ensures ReplayPath(s, path).None?
  {
    if n < |path| {
      assert path[..|path| - 1][..n] == path[..n];
      ReplayStops(s, path[..|path| - 1], n);
    } else {
      assert path[..n] == path;
    }
  }

  /** The first branch, `main` aside, whose path holds the event, unless `main` holds it. */
  method DesiredBranch(
    parents: Parents, tips: Tips, order: seq<Id>, mainPath: seq<Id>, id: Id, ghost k: nat) returns (branch: Id)
    requires IsOrder(order, tips) && k < |order|
    requires Path(parents, tips, MAIN) == Ok(mainPath)
    requires Path(parents, tips, order[k]).Ok? && id in Path(parents, tips, order[k]).value
    requires forall j | 0 <= j < k :: Path(parents, tips, order[j]).Ok? && id !in Path(parents, tips, order[j]).value
    ensures branch == order[k]
  {
    for j := 1 to |order|
      invariant id in mainPath || j <= k
    {
      var path := AncestryOf(parents, TipOf(tips, order[j]));
      if path.Ok? && id in path.value && id !in mainPath {
        return order[j];
      }
    }
    return MAIN;
  }

  /** Moves to the fork, creates the branch there if it is new, and switches to it. */
  method SwitchTo(
    s: Legacy, d: Draft, fork: Option<Id>, branch: Id, ghost all: seq<Id>, ghost n: nat) returns (d': Draft)
    requires n <= |all| && Written(s, d, all, n)
    requires fork.Some? ==> fork.value in Restrict(ParentsOf(s.events), all[..n])
    ensures Written(s, d', all, n)
    ensures d'.branches == if branch in d.branches then d.branches else d.branches[branch := fork]
    ensures d'.branch == branch && d'.head == d'.branches[branch]
    ensures ShapeOf(d'.records) == ShapeOf(d.records) + Blanks(One(d.head != fork) + One(branch !in d.branches) + 1)
  {
    hide Written, Controlled, ShapeOf;
    d' := d;
    BlanksAdd(ShapeOf(d.records), 0, 0);
    if d'.head != fork {
      var e := NoEffects.(target := Some(fork));
      ControlIsWritten(s, d', all, n, Checkout, e, fork, d'.branch, d'.branches);
      ControlShape(s, d', Checkout, e, fork, d'.branch, d'.branches);
      d' := Controlled(s, d', Checkout, e, fork, d'.branch, d'.branches);
    }
    ghost var moved := One(d.head != fork);
    assert ShapeOf(d'.records) == ShapeOf(d.records) + Blanks(moved);
    var e := NoEffects.(branchName := Some(branch));
    if branch !in d'.branches {
      var branches := d'.branches[branch := fork];
      ControlIsWritten(s, d', all, n, BranchCreate, e, d'.head, d'.branch, branches);
      ControlShape(s, d', BranchCreate, e, d'.head, d'.branch, branches);
      BlanksAdd(ShapeOf(d.records), moved, 1);
      d' := Controlled(s, d', BranchCreate, e, d'.head, d'.branch, branches);
    }
    ghost var made := moved + One(branch !in d.branches);
    assert ShapeOf(d'.records) == ShapeOf(d.records) + Blanks(made);
    ControlIsWritten(s, d', all, n, BranchSwitch, e, d'.branches[branch], branch, d'.branches);
    ControlShape(s, d', BranchSwitch, e, d'.branches[branch], branch, d'.branches);
    BlanksAdd(ShapeOf(d.records), made, 1);
    d' := Controlled(s, d', BranchSwitch, e, d'.branches[branch], branch, d'.branches);
  }

  /** Where the stream stands within the list: in the stretch of branch `k`, with the stretches before it complete. */
  ghost predicate InStretch(parents: Parents, tips: Tips, order: seq<Id>, all: seq<Id>, d: Draft, k: nat, i: nat)
    requires i <= |all|
  {
    && k < |order| && d.branch == order[k]
    && Reach(parents, tips, order, k) <= i <= Reach(parents, tips, order, k + 1)
    && (i == Reach(parents, tips, order, k) ==> k == 0)
    && d.head == Last(all[..i])
    && order[k] in d.branches && d.branches[order[k]] == d.head
    && (forall x | x in d.branches :: x in order)
    && (forall j | k < j < |order| :: order[j] !in d.branches)
    && (forall j | 0 <= j < k && order[j] in d.branches :: d.branches[order[j]] == TipOf(tips, order[j]))
  }

  /** A stretch that is over has brought its branch to its tip. */
  lemma StretchEndsAtTip(s: Legacy, tips: Tips, order: seq<Id>, all: seq<Id>, d: Draft, k: nat, i: nat)
    requires Plan(s, tips, order, all) && i <= |all|
    requires InStretch(ParentsOf(s.events), tips, order, all, d, k, i)
      && i == Reach(ParentsOf(s.events), tips, order, k + 1)
    ensures d.branches[order[k]] == TipOf(tips, order[k])
  {
    hide Listed, Path, ParentsOf, Reach;
    var parents := ParentsOf(s.events);
    FirstStretch(parents, tips, order);
    if i > Reach(parents, tips, order, k) {
      PositionIsKnown(parents, tips, order, k, i - 1);
    }
  }

  lemma NextStretch(s: Legacy, tips: Tips, order: seq<Id>, all: seq<Id>, d: Draft, k: nat, i: nat) returns (k': nat)
    requires Plan(s, tips, order, all) && i < |all|
    requires InStretch(ParentsOf(s.events), tips, order, all, d, k, i)
    ensures k <= k' < |order|
    ensures Reach(ParentsOf(s.events), tips, order, k') <= i < Reach(ParentsOf(s.events), tips, order, k' + 1)
    ensures k' > k ==> i == Reach(ParentsOf(s.events), tips, order, k + 1)
  {
    var parents := ParentsOf(s.events);
    assert order[..|order|] == order;
    k' := StretchOf(parents, tips, order, i, |order|);
    if k' < k {
      ReachIsMonotone(parents, tips, order, k' + 1, k);
    } else if k' > k {
      ReachIsMonotone(parents, tips, order, k + 1, k');
    }
  }

  lemma WholeListIsDone(s: Legacy, tips: Tips, order: seq<Id>, all: seq<Id>, d: Draft, k: nat)
    requires Plan(s, tips, order, all)
    requires InStretch(ParentsOf(s.events), tips, order, all, d, k, |all|)
    ensures forall x | x in d.branches :: x in order && d.branches[x] == TipOf(tips, x)
  {
    hide Listed, Path, ParentsOf;
    var parents := ParentsOf(s.events);
    assert order[..|order|] == order;
    ReachIsMonotone(parents, tips, order, k + 1, |order|);
    StretchEndsAtTip(s, tips, order, all, d, k, |all|);
    forall x | x in d.branches ensures x in order && d.branches[x] == TipOf(tips, x) {
      var j :| 0 <= j < |order| && order[j] == x;
      assert j <= k;
    }
  }

  /** The draft is on the branch the next listed event belongs to, with its parent as head. */
  ghost predicate AtEvent(parents: Parents, tips: Tips, order: seq<Id>, all: seq<Id>, d: Draft, k: nat, i: nat)
    requires i < |all|
  {
    && k < |order| && d.branch == order[k]
    && Reach(parents, tips, order, k) <= i < Reach(parents, tips, order, k + 1)
    && all[i] in parents && d.head == parents[all[i]]
    && order[k] in d.branches
    && (forall x | x in d.branches :: x in order)
    && (forall j | k < j < |order| :: order[j] !in d.branches)
    && (forall j | 0 <= j < k && order[j] in d.branches :: d.branches[order[j]] == TipOf(tips, order[j]))
  }

  method EnterBranch(
    s: Legacy, d: Draft, tips: Tips, order: seq<Id>, mainPath: seq<Id>, event: Event, ghost all: seq<Id>, ghost k: nat,
    ghost i: nat)
    returns (d': Draft, ghost k': nat)
    requires Plan(s, tips, order, all) && i < |all| && Written(s, d, all, i)
    requires InStretch(ParentsOf(s.events), tips, order, all, d, k, i)
    requires Path(ParentsOf(s.events), tips, MAIN) == Ok(mainPath)
    requires event.id == all[i] && event.id in ParentsOf(s.events) && event.parent == ParentsOf(s.events)[event.id]
    requires Tracks(s, d, all[..i])
    ensures Written(s, d', all, i) && AtEvent(ParentsOf(s.events), tips, order, all, d', k', i)
    ensures Leads(s, d', all[..i], event.id)
    ensures forall x | x in d.branches :: x in d'.branches
  {
    hide Listed, Path, Written, Reach, ParentsOf, Last, InStretch, AtEvent, Tracks, Leads, ShapeOf, TipsOf, OrderOf,
      OwningBranch;
    var parents := ParentsOf(s.events);
    d' := d;
    k' := NextStretch(s, tips, order, all, d, k, i);
    PositionIsKnown(parents, tips, order, k', i);
    OwnerIsFirst(parents, tips, order, event.id, k');
    HeadIsLast(parents, tips, order, all, d, k, i);
    var desired := DesiredBranch(parents, tips, order, mainPath, event.id, k');
    StretchBranch(parents, tips, order, all, d, k, i, k');
    if desired != d'.branch {
      ForkIsWritten(s, tips, order, all, i);
      d' := SwitchTo(s, d', event.parent, desired, all, i);
      SwitchedIsAtEvent(s, tips, order, all, d, k, i, d', k');
      SwitchLeads(s, d, all[..i], event, d');
    } else {
      HeadIsParent(s, tips, order, all, d, k, i);
      StayedIsAtEvent(s, tips, order, all, d, k, i);
      StayLeads(s, d, all[..i], event);
    }
  }

  lemma HeadIsLast(parents: Parents, tips: Tips, order: seq<Id>, all: seq<Id>, d: Draft, k: nat, i: nat)
    requires i <= |all| && InStretch(parents, tips, order, all, d, k, i)
    ensures d.head == Last(all[..i])
  {
    hide Reach;
  }

  lemma SwitchLeads(s: Legacy, d: Draft, ids: seq<Id>, event: Event, d': Draft)
    requires Tracks(s, d, ids) && d.head == Last(ids) && event.parent == ParentIn(LayoutOf(s), event.id)
    requires BranchOwning(LayoutOf(s), event.id) != d.branch
    requires d'.branch == BranchOwning(LayoutOf(s), event.id) && d'.branches.Keys == d.branches.Keys + {d'.branch}
    requires ShapeOf(d'.records)
      == ShapeOf(d.records) + Blanks(One(d.head != event.parent) + One(d'.branch !in d.branches) + 1)
    ensures Leads(s, d', ids, event.id)
  {
    hide LayoutOf, EventsShape, BranchesAfter, BranchAfter, BranchOwning, ShapeOf;
  }

  lemma StayLeads(s: Legacy, d: Draft, ids: seq<Id>, event: Event)
    requires Tracks(s, d, ids) && BranchOwning(LayoutOf(s), event.id) == d.branch
    ensures Leads(s, d, ids, event.id)
  {
    BlanksAdd(ShapeOf(d.records), 0, 0);
    OwnBranchIsKnown(LayoutOf(s), ids);
    hide LayoutOf, EventsShape, BranchesAfter, BranchAfter, BranchOwning, ShapeOf;
  }

  /** Whether the next event's branch is the current one or one not met before. */
  lemma StretchBranch(parents: Parents, tips: Tips, order: seq<Id>, all: seq<Id>, d: Draft, k: nat, i: nat, k': nat)
    requires i <= |all| && IsOrder(order, tips) && InStretch(parents, tips, order, all, d, k, i) && k <= k' < |order|
    ensures d.branch == order[k] && (order[k'] == d.branch <==> k' == k) && (k' > k ==> order[k'] !in d.branches)
  {
    hide Reach;
  }

  lemma ForkIsWritten(s: Legacy, tips: Tips, order: seq<Id>, all: seq<Id>, i: nat)
    requires Plan(s, tips, order, all) && i < |all|
    ensures all[i] in ParentsOf(s.events)
    ensures ParentsOf(s.events)[all[i]].Some? ==>
      ParentsOf(s.events)[all[i]].value in Restrict(ParentsOf(s.events), all[..i])
  {
    hide ParentsOf, Listed, Path;
    var parents := ParentsOf(s.events);
    ListIsOrdered(parents, tips, order);
    ListIsPlanned(s, tips, order, all);
  }

  lemma SwitchedIsAtEvent(
    s: Legacy, tips: Tips, order: seq<Id>, all: seq<Id>, d: Draft, k: nat, i: nat, d': Draft, k': nat)
    requires Plan(s, tips, order, all) && i < |all| && all[i] in ParentsOf(s.events)
    requires InStretch(ParentsOf(s.events), tips, order, all, d, k, i) && k < k' < |order|
    requires Reach(ParentsOf(s.events), tips, order, k') <= i < Reach(ParentsOf(s.events), tips, order, k' + 1)
    requires i == Reach(ParentsOf(s.events), tips, order, k + 1)
    requires d'.branch == order[k'] && d'.head == ParentsOf(s.events)[all[i]]
      && d'.branches == d.branches[order[k'] := d'.head]
    ensures AtEvent(ParentsOf(s.events), tips, order, all, d', k', i)
  {
    hide ParentsOf, Listed, Path, Reach, TipsOf, OrderOf, Last;
    StretchEndsAtTip(s, tips, order, all, d, k, i);
    forall j | 0 <= j < |order| && order[j] in d'.branches && j != k' ensures j <= k {
      assert order[j] in d.branches;
    }
  }

  lemma StayedIsAtEvent(s: Legacy, tips: Tips, order: seq<Id>, all: seq<Id>, d: Draft, k: nat, i: nat)
    requires i < |all| && InStretch(ParentsOf(s.events), tips, order, all, d, k, i)
    requires i < Reach(ParentsOf(s.events), tips, order, k + 1)
    requires all[i] in ParentsOf(s.events) && d.head == ParentsOf(s.events)[all[i]]
    ensures AtEvent(ParentsOf(s.events), tips, order, all, d, k, i)
  {
    hide ParentsOf, Reach;
  }

  lemma HeadIsParent(s: Legacy, tips: Tips, order: seq<Id>, all: seq<Id>, d: Draft, k: nat, i: nat)
    requires Plan(s, tips, order, all) && i < |all|
    requires InStretch(ParentsOf(s.events), tips, order, all, d, k, i)
      && i < Reach(ParentsOf(s.events), tips, order, k + 1)
    ensures all[i] in ParentsOf(s.events) && d.head == ParentsOf(s.events)[all[i]]
  {
    hide Listed, Path, ParentsOf;
    PositionIsKnown(ParentsOf(s.events), tips, order, k, i);
    FirstStretch(ParentsOf(s.events), tips, order);
  }

  lemma CommittedIsInStretch(
    parents: Parents, tips: Tips, order: seq<Id>, all: seq<Id>, d: Draft, k: nat, i: nat, d': Draft)
    requires i < |all| && AtEvent(parents, tips, order, all, d, k, i) && Distinct(order)
    requires d'.branch == d.branch && d'.head == Some(all[i]) && d'.branches == d.branches[d.branch := d'.head]
    ensures InStretch(parents, tips, order, all, d', k, i + 1)
  {
    hide Reach;
    assert Last(all[..i + 1]) == Some(all[i]);
  }

  method WriteEvent(
    s: Legacy, d: Draft, event: Event, ghost tips: Tips, ghost order: seq<Id>, ghost all: seq<Id>, ghost k: nat,
    ghost i: nat)
    returns (r: Option<Draft>)
    requires Plan(s, tips, order, all) && i < |all| && Distinct(all) && Written(s, d, all, i)
    requires AtEvent(ParentsOf(s.events), tips, order, all, d, k, i)
    requires event.id == all[i] && event.parent == ParentsOf(s.events)[event.id] && event in s.events
    requires Leads(s, d, all[..i], event.id)
    ensures r.None? ==> Materialized(s, event.parent).None? || Materialized(s, Some(event.id)).None?
    ensures r.Some? ==> Written(s, r.value, all, i + 1)
    ensures r.Some? ==>
      InStretch(ParentsOf(s.events), tips, order, all, r.value, k, i + 1) && Tracks(s, r.value, all[..i + 1])
    ensures r.Some? ==> forall x | x in d.branches :: x in r.value.branches
  {
    hide Listed, Path, Written, Reach, ParentsOf, Materialized, Committed, Tracks, Leads, InStretch, Last, TipsOf,
      OrderOf;
    var predecessor := Materialize(s, event.parent);
    var after := Materialize(s, Some(event.id));
    if predecessor.None? || after.None? {
      return None;
    }
    EventIsWritten(s, d, all, i, event);
    EventTracks(s, d, all[..i], event, predecessor.value, after.value);
    assert all[..i + 1] == all[..i] + [event.id];
    r := Some(Committed(s, d, event, predecessor.value, after.value));
    CommittedIsInStretch(ParentsOf(s.events), tips, order, all, d, k, i, r.value);
  }

  lemma StartsOnMain(s: Legacy, tips: Tips, order: seq<Id>, all: seq<Id>)
    requires Plan(s, tips, order, all)
    ensures
      var d := Draft([], MAIN, None, map[MAIN := None], 0, 0);
      Written(s, d, all, 0) && InStretch(ParentsOf(s.events), tips, order, all, d, 0, 0) && Tracks(s, d, all[..0])
  {
    hide Listed, ParentsOf;
    ListIsPlanned(s, tips, order, all);
    assert Restrict(ParentsOf(s.events), all[..0]) == map[];
  }

  method WriteEvents(
    s: Legacy, byId: map<Id, Event>, tips: Tips, order: seq<Id>, all: seq<Id>) returns (r: Option<Draft>)
    requires Plan(s, tips, order, all)
    requires byId.Keys == ParentsOf(s.events).Keys
    requires forall x | x in byId :: byId[x].id == x && byId[x].parent == ParentsOf(s.events)[x] && byId[x] in s.events
    ensures r.None? ==> exists x | x in ParentsOf(s.events) :: Materialized(s, Some(x)).None?
    ensures r.Some? ==> Written(s, r.value, all, |all|)
    ensures r.Some? ==> forall x | x in r.value.branches :: x in order && r.value.branches[x] == TipOf(tips, x)
    ensures r.Some? ==> MAIN in r.value.branches && r.value.head == Last(all) && Tracks(s, r.value, all)
  {
    hide Tracks, Leads, Last;
    hide Listed, Written, ParentsOf, Materialized, AtEvent, InStretch, Reach, Plan, Ancestors, Distinct;
    var parents := ParentsOf(s.events);
    var mainPath := AncestryOf(parents, TipOf(tips, MAIN));
    ListIsPlanned(s, tips, order, all);
    StartsOnMain(s, tips, order, all);
    var d := Draft([], MAIN, None, map[MAIN := None], 0, 0);
    ghost var k := 0;
    for i := 0 to |all|
      invariant Written(s, d, all, i) && InStretch(parents, tips, order, all, d, k, i) && Tracks(s, d, all[..i])
      invariant MAIN in d.branches
    {
      var event := byId[all[i]];
      d, k := EnterBranch(s, d, tips, order, mainPath.value, event, all, k, i);
      var next := WriteEvent(s, d, event, tips, order, all, k, i);
      if next.None? {
        MaterializedBase(s);
        return None;
      }
      d := next.value;
    }
    assert all[..|all|] == all;
    WholeListIsDone(s, tips, order, all, d, k);
    HeadIsLast(parents, tips, order, all, d, k, |all|);
    return Some(d);
  }

  lemma MaterializedBase(s: Legacy)
    ensures Materialized(s, None) == Some(s.base)
  {
  }

  lemma ListIsPlanned(s: Legacy, tips: Tips, order: seq<Id>, all: seq<Id>)
    requires Plan(s, tips, order, all)
    ensures Distinct(all) && Path(ParentsOf(s.events), tips, MAIN).Ok?
    ensures Reach(ParentsOf(s.events), tips, order, 0) == 0 <= Reach(ParentsOf(s.events), tips, order, 1)
    ensures forall i | 0 <= i < |all| ::
      all[i] in ParentsOf(s.events)
        && (ParentsOf(s.events)[all[i]].Some? ==> ParentsOf(s.events)[all[i]].value in ParentsOf(s.events))
  {
    var parents := ParentsOf(s.events);
    PathIsListed(parents, tips, order, 0, "");
    FirstStretch(parents, tips, order);
    ListIsOrdered(parents, tips, order);
    forall i | 0 <= i < |all| && parents[all[i]].Some? ensures parents[all[i]].value in parents {
      assert parents[all[i]].value in all[..i];
    }
  }

  // ---- aliases, selection and head ----

  /** The branches an import ends with: the legacy ones, and `main` if there was none. */
  function FinalBranches(tips: Tips): Tips {
    if MAIN in tips then tips else tips[MAIN := None]
  }

  lemma TipsAreKnown(s: Legacy, tips: Tips, order: seq<Id>, all: seq<Id>, name: Id)
    requires Plan(s, tips, order, all) && name in order
    ensures TipOf(tips, name).Some? ==> TipOf(tips, name).value in Restrict(ParentsOf(s.events), all)
  {
    var parents := ParentsOf(s.events);
    var k :| 0 <= k < |order| && order[k] == name;
    PathIsListed(parents, tips, order, k, name);
    PathIsChain(parents, TipOf(tips, name), {});
  }

  /** One branch entry at a tip, moving the head there first. */
  method WriteAlias(s: Legacy, d: Draft, name: Id, tip: Option<Id>, ghost all: seq<Id>) returns (d': Draft)
    requires Written(s, d, all, |all|) && name !in d.branches
    requires tip.Some? ==> tip.value in Restrict(ParentsOf(s.events), all)
    ensures Written(s, d', all, |all|) && d'.branches == d.branches[name := tip] && d'.branch == d.branch
      && d'.head == tip
    ensures ShapeOf(d'.records) == ShapeOf(d.records) + Blanks(One(d.head != tip) + 1)
  {
    hide Written, Controlled, ShapeOf;
    assert all[..|all|] == all;
    d' := d;
    BlanksAdd(ShapeOf(d.records), 0, 0);
    if d'.head != tip {
      var e := NoEffects.(target := Some(tip));
      ControlIsWritten(s, d', all, |all|, Checkout, e, tip, d'.branch, d'.branches);
      ControlShape(s, d', Checkout, e, tip, d'.branch, d'.branches);
      d' := Controlled(s, d', Checkout, e, tip, d'.branch, d'.branches);
    }
    var e := NoEffects.(branchName := Some(name));
    var branches := d'.branches[name := tip];
    ControlIsWritten(s, d', all, |all|, BranchCreate, e, d'.head, d'.branch, branches);
    ControlShape(s, d', BranchCreate, e, d'.head, d'.branch, branches);
    BlanksAdd(ShapeOf(d.records), One(d.head != tip), 1);
    d' := Controlled(s, d', BranchCreate, e, d'.head, d'.branch, branches);
  }

  lemma AliasStep(tips: Tips, order: seq<Id>, k: nat, known: set<Id>, head: Option<Id>)
    requires k < |order|
    ensures
      var before := AliasTail(tips, order[..k], known, head);
      AliasTail(tips, order[..k + 1], known, head) ==
        if order[k] in known then before
        else (before.0 + One(before.1 != TipOf(tips, order[k])) + 1, TipOf(tips, order[k]))
  {
    assert order[..k + 1][..k] == order[..k];
  }

  /** How far the alias loop has come: the names before `k` have their entries, the others are as they were. */
  ghost predicate Aliased(was: Draft, d: Draft, tips: Tips, order: seq<Id>, k: nat)
    requires k <= |order|
  {
    && d.branch == was.branch && MAIN in d.branches
    && (forall x | x in d.branches :: x in order && d.branches[x] == TipOf(tips, x))
    && (forall j | 0 <= j < k :: order[j] in d.branches)
    && (forall j | k <= j < |order| :: order[j] in d.branches <==> order[j] in was.branches)
    && d.head == AliasTail(tips, order[..k], was.branches.Keys, was.head).1
    && ShapeOf(d.records) == ShapeOf(was.records) + Blanks(AliasTail(tips, order[..k], was.branches.Keys, was.head).0)
  }

  lemma AliasesStart(d: Draft, tips: Tips, order: seq<Id>)
    requires order != [] && order[0] == MAIN && MAIN in d.branches
    requires forall x | x in d.branches :: x in order && d.branches[x] == TipOf(tips, x)
    ensures Aliased(d, d, tips, order, 1)
  {
    AliasStep(tips, order, 0, d.branches.Keys, d.head);
    BlanksAdd(ShapeOf(d.records), 0, 0);
  }

  lemma AliasSkipped(was: Draft, d: Draft, tips: Tips, order: seq<Id>, k: nat)
    requires k < |order| && Aliased(was, d, tips, order, k) && order[k] in d.branches
    ensures Aliased(was, d, tips, order, k + 1)
  {
    hide AliasTail, ShapeOf;
    AliasStep(tips, order, k, was.branches.Keys, was.head);
  }

  lemma AliasJoined(was: Draft, d: Draft, d': Draft, tips: Tips, order: seq<Id>, k: nat)
    requires k < |order| && Distinct(order) && Aliased(was, d, tips, order, k) && order[k] !in d.branches
    requires d'.branches == d.branches[order[k] := TipOf(tips, order[k])] && d'.branch == d.branch
    requires d'.head == TipOf(tips, order[k])
    requires ShapeOf(d'.records) == ShapeOf(d.records) + Blanks(One(d.head != TipOf(tips, order[k])) + 1)
    ensures Aliased(was, d', tips, order, k + 1)
  {
    hide AliasTail, ShapeOf;
    AliasStep(tips, order, k, was.branches.Keys, was.head);
    BlanksAdd(
      ShapeOf(was.records), AliasTail(tips, order[..k], was.branches.Keys, was.head).0,
      One(d.head != TipOf(tips, order[k])) + 1);
  }

  lemma AliasesDone(was: Draft, d: Draft, tips: Tips, order: seq<Id>)
    requires IsOrder(order, tips) && Aliased(was, d, tips, order, |order|)
    ensures d.branches == FinalBranches(tips) && d.branch == was.branch
    ensures d.head == AliasTail(tips, order, was.branches.Keys, was.head).1
    ensures ShapeOf(d.records) == ShapeOf(was.records) + Blanks(AliasTail(tips, order, was.branches.Keys, was.head).0)
  {
    hide AliasTail, ShapeOf, Distinct;
    assert order[..|order|] == order;
    forall x | x in FinalBranches(tips) ensures x in d.branches {
      var j :| 0 <= j < |order| && order[j] == x;
    }
  }

  /** Branches that own no event of their own still get their entry. */
  method WriteAliases(s: Legacy, d: Draft, tips: Tips, order: seq<Id>, ghost all: seq<Id>) returns (d': Draft)
    requires Plan(s, tips, order, all) && Written(s, d, all, |all|)
    requires forall x | x in d.branches :: x in order && d.branches[x] == TipOf(tips, x)
    requires MAIN in d.branches
    ensures Written(s, d', all, |all|)
    ensures d'.branches == FinalBranches(tips) && d'.branch == d.branch
    ensures d'.head == AliasTail(tips, order, d.branches.Keys, d.head).1
    ensures ShapeOf(d'.records) == ShapeOf(d.records) + Blanks(AliasTail(tips, order, d.branches.Keys, d.head).0)
  {
    hide Listed, Written, Restrict, ShapeOf, AliasTail, Aliased, TipsOf, OrderOf, ParentsOf;
    AliasesStart(d, tips, order);
    d' := d;
    for k := 1 to |order|
      invariant Written(s, d', all, |all|) && Aliased(d, d', tips, order, k)
    {
      if order[k] in d'.branches {
        AliasSkipped(d, d', tips, order, k);
      } else {
        TipsAreKnown(s, tips, order, all, order[k]);
        ghost var before := d';
        d' := WriteAlias(s, d', order[k], TipOf(tips, order[k]), all);
        AliasJoined(d, before, d', tips, order, k);
      }
    }
    AliasesDone(d, d', tips, order);
  }

  method SelectBranch(s: Legacy, d: Draft, ghost all: seq<Id>) returns (d': Draft)
    requires Written(s, d, all, |all|) && s.current in d.branches
    ensures Written(s, d', all, |all|)
    ensures d'.branches == d.branches && d'.branch == s.current
    ensures d'.head == if d.branch != s.current then d.branches[s.current] else d.head
    ensures ShapeOf(d'.records) == ShapeOf(d.records) + Blanks(One(d.branch != s.current))
  {
    d' := d;
    BlanksAdd(ShapeOf(d.records), 0, 0);
    if d.branch != s.current {
      var e := NoEffects.(branchName := Some(s.current));
      ControlIsWritten(s, d', all, |all|, BranchSwitch, e, d.branches[s.current], s.current, d.branches);
      ControlShape(s, d', BranchSwitch, e, d.branches[s.current], s.current, d.branches);
      d' := Controlled(s, d', BranchSwitch, e, d.branches[s.current], s.current, d.branches);
    }
  }

  lemma HeadIsKnown(s: Legacy, d: Draft, all: seq<Id>)
    requires Written(s, d, all, |all|) && Replay(s.session, s.base, d.records).Some? && d.head.Some?
    ensures d.head.value in ParentsOf(s.events)
  {
    hide Replay, AllGenuine, EventsOnce, Named;
    ReplayedIsClean(s, d.records);
    HistoryTreeIsSound(s.session, s.base, d.records);
  }

  lemma UnknownHeadIsRefused(s: Legacy, d: Draft, all: seq<Id>, t: Transition, e: Effects)
    requires Written(s, d, all, |all|) && e.prepared.None? && s.head.Some?
    requires Replay(s.session, s.base, Controlled(s, d, t, e, s.head, d.branch, d.branches).records).Some?
    ensures s.head.value in ParentsOf(s.events)
  {
    hide Admit, AllGenuine, EventsOnce, Named;
    var js := Controlled(s, d, t, e, s.head, d.branch, d.branches).records;
    assert js[..|js| - 1] == d.records;
    ReplayedIsClean(s, d.records);
    HistoryTreeIsSound(s.session, s.base, d.records);
    LastRecordStands(s.session, s.base, js);
    AdmitGrows(Replay(s.session, s.base, d.records).value, js[|js| - 1], Replay(s.session, s.base, js).value);
  }

  /** Brings the head to where the legacy session shows it; an unknown one is refused by replay. */
  method RestoreHead(s: Legacy, d: Draft, parents: Parents, ghost all: seq<Id>) returns (d': Draft)
    requires Written(s, d, all, |all|) && parents == ParentsOf(s.events) && (forall x | x in parents :: x in all)
    ensures d'.branches == d.branches && d'.branch == d.branch && d'.head == s.head
    ensures (s.head.Some? ==> s.head.value in parents) ==> Written(s, d', all, |all|)
    ensures Replay(s.session, s.base, d'.records).Some? && s.head.Some? ==> s.head.value in parents
    ensures ShapeOf(d'.records) == ShapeOf(d.records) + Blanks(One(d.head != s.head))
  {
    hide Replay, AllGenuine, EventsOnce, Follows;
    d' := d;
    BlanksAdd(ShapeOf(d.records), 0, 0);
    if d.head != s.head {
      assert all[..|all|] == all;
      var undone := d.head.Some? && d.head.value in parents && parents[d.head.value] == s.head;
      var t, e := if undone then Undo else Checkout, NoEffects.(target := Some(s.head));
      d' := Controlled(s, d, t, e, s.head, d.branch, d.branches);
      ControlShape(s, d, t, e, s.head, d.branch, d.branches);
      if s.head.Some? ==> s.head.value in parents {
        ControlIsWritten(s, d, all, |all|, t, e, s.head, d.branch, d.branches);
      } else if Replay(s.session, s.base, d'.records).Some? {
        UnknownHeadIsRefused(s, d, all, t, e);
      }
    } else if Replay(s.session, s.base, d'.records).Some? && s.head.Some? {
      HeadIsKnown(s, d, all);
    }
  }

  // ---- the import ----

  /** One event's record: its own id, its legacy parent as history parent and as the head when it is written. */
  ghost predicate EventKept(s: Legacy, js: seq<Record>, i: nat)
    requires i < |js|
  {
    var parents := ParentsOf(s.events);
    && js[i].commitId in parents && js[i].historyParent == parents[js[i].commitId]
    && (exists e | e in s.events :: e.id == js[i].commitId && js[i].fingerprint == ImportPrint(e.hash))
    && Replay(s.session, s.base, js[..i]).Some? && Replay(s.session, s.base, js[..i]).value.head == js[i].historyParent
  }

  /**
    Replayed, the records are the legacy session: tree, branches, selection, head and every document.
    The branch map is the legacy one exactly when the legacy session has a `main`.
   */
  ghost predicate Faithful(s: Legacy, js: seq<Record>) {
    var parents, h := ParentsOf(s.events), Replay(s.session, s.base, js);
    && h.Some? && h.value.parents == parents
    && h.value.branches == FinalBranches(TipsOf(s.branches)) && h.value.branch == s.current && h.value.head == s.head
    && (h.value.branches == TipsOf(s.branches) <==> MAIN in TipsOf(s.branches))
    && (forall i | 0 <= i < |js| && Publishes(js[i]) :: EventKept(s, js, i))
    && (forall x | x in parents :: ParentIsOlder(js, h.value, x))
    && (forall x | x in parents :: DocAt(js, s.base, Some(x)) == Materialized(s, Some(x)))
    && Rebuildable(js, s.base)
  }

  lemma PublicationIsGenuine(s: Legacy, js: seq<Record>, h: HistoryState, x: Id)
    requires AllGenuine(s, js) && x in h.parents && ParentIsOlder(js, h, x)
    ensures Materialized(s, h.parents[x]).Some? && Materialized(s, Some(x)).Some?
    ensures PublicationOf(js, x)
      == Snapshot(Blank(Materialized(s, h.parents[x]).value), Materialized(s, Some(x)).value, Invalidate)
  {
    hide Materialized, ParentsOf;
    assert Genuine(s, js[Rank(js, x) - 1]);
  }

  /** The document replay finds at each event is the one the legacy session computed. */
  lemma {:induction false} DocumentsAreKept(s: Legacy, js: seq<Record>, h: HistoryState, at: Option<Id>)
    requires TreeSound(js, h) && AllGenuine(s, js) && Known(h, at)
    ensures Materialized(s, at).Some? && DocAt(js, s.base, at) == Materialized(s, at)
    decreases if at.Some? then Rank(js, at.value) else 0
  {
    hide AllGenuine, ParentsOf;
    if at.Some? {
      assert ParentIsOlder(js, h, at.value);
      PublicationIsGenuine(s, js, h, at.value);
      DocAtUnfolds(js, s.base, h, at.value);
      DocumentsAreKept(s, js, h, h.parents[at.value]);
    } else {
      assert DocAt(js, s.base, None) == Some(s.base);
    }
  }

  lemma WrittenIsKept(s: Legacy, js: seq<Record>, i: nat)
    requires Replay(s.session, s.base, js).Some? && AllGenuine(s, js) && i < |js| && Publishes(js[i])
    ensures EventKept(s, js, i)
    ensures DocAt(js[..i + 1], s.base, Some(js[i].commitId)).Some?
  {
    hide Replay, Admit, Materialized, ParentsOf;
    assert Genuine(s, js[i]);
    ReplayPrefix(s.session, s.base, js, i);
    ReplayPrefix(s.session, s.base, js, i + 1);
    assert js[..i + 1][..i] == js[..i];
    HistoryTreeIsSound(s.session, s.base, js[..i]);
    HistoryTreeIsSound(s.session, s.base, js[..i + 1]);
    var h := Replay(s.session, s.base, js[..i + 1]).value;
    LastAdmitted(s.session, s.base, js[..i + 1]);
    AdmitGrows(Replay(s.session, s.base, js[..i]).value, js[i], h);
    assert AllGenuine(s, js[..i + 1]);
    DocumentsAreKept(s, js[..i + 1], h, Some(js[i].commitId));
  }

  lemma WrittenIsFaithful(s: Legacy, d: Draft, all: seq<Id>)
    requires Written(s, d, all, |all|) && (forall x | x in ParentsOf(s.events) :: x in all)
    requires d.branches == FinalBranches(TipsOf(s.branches)) && d.branch == s.current && d.head == s.head
    requires Replay(s.session, s.base, d.records).Some?
    ensures Faithful(s, d.records)
    ensures forall x | x in ParentsOf(s.events) :: Materialized(s, Some(x)).Some?
  {
    hide Replay, EventKept, AllGenuine, EventsOnce, Named, Materialized, DocAt, ParentsOf, TipsOf, Publishes, Clean;
    var js := d.records;
    var h := Replay(s.session, s.base, js).value;
    ReplayedIsClean(s, js);
    assert all[..|all|] == all;
    HistoryTreeIsSound(s.session, s.base, js);
    assert h.parents == ParentsOf(s.events);
    forall i | 0 <= i < |js| && Publishes(js[i])
      ensures EventKept(s, js, i) && DocAt(js[..i + 1], s.base, Some(js[i].commitId)).Some?
    {
      WrittenIsKept(s, js, i);
    }
    forall x | x in ParentsOf(s.events)
      ensures DocAt(js, s.base, Some(x)) == Materialized(s, Some(x)) && Materialized(s, Some(x)).Some?
    {
      DocumentsAreKept(s, js, h, Some(x));
    }
  }

  lemma ControlsDiffer(m: nat, n: nat)
    ensures ControlId(m) == ControlId(n) ==> m == n
  {
    assert ControlId(m)[|CONTROL_PREFIX|..] == Hex(m, 16) && ControlId(n)[|CONTROL_PREFIX|..] == Hex(n, 16);
    if Hex(m, 16) == Hex(n, 16) {
      HexIsInjective(m, n, 16, 16);
    }
  }

  /** The places of synthetic records in the stream of a session, counted from zero. */
  function ControlSlots(s: Legacy): set<nat> {
    var shape := StreamShape(LayoutOf(s), s.current, s.head);
    set n: nat | n < |shape| && shape[n] == None
  }

  /** No event is nameless, and none bears the name of a synthetic record of its session's stream. */
  predicate NamesAreFree(s: Legacy) {
    forall x | x in ParentsOf(s.events) :: x != "" && forall n | n in ControlSlots(s) :: x != ControlId(n + 1)
  }

  lemma CleanIfFree(s: Legacy, js: seq<Record>, done: seq<Id>)
    requires Named(js) && EventsOnce(js, done) && NamesAreFree(s)
    requires ShapeOf(js) == StreamShape(LayoutOf(s), s.current, s.head)
    requires forall x | x in done :: x in ParentsOf(s.events)
    ensures Clean(js)
  {
    hide LayoutOf, StreamShape, ParentsOf;
    forall i | 0 <= i < |js|
      ensures !js[i].transition.Mutation? ==> js[i].commitId == ControlId(i + 1) && i in ControlSlots(s)
    {
      assert ShapeOf(js)[i] == if js[i].transition.Mutation? then Some(js[i].commitId) else None;
    }
    forall i, j | 0 <= i < j < |js| ensures js[i].commitId != js[j].commitId {
      if !js[i].transition.Mutation? && !js[j].transition.Mutation? {
        ControlsDiffer(i + 1, j + 1);
      }
    }
  }

  lemma FreeIfClean(s: Legacy, js: seq<Record>, all: seq<Id>)
    requires Named(js) && Clean(js)
    requires ShapeOf(js) == StreamShape(LayoutOf(s), s.current, s.head)
    requires Listed(ParentsOf(s.events), TipsOf(s.branches), OrderOf(s.branches)) == Ok(all)
    requires forall x | x in ParentsOf(s.events) :: x in all
    ensures NamesAreFree(s)
  {
    hide ParentsOf, TipsOf, OrderOf, EventsShape, TailLength, Listed;
    var shape := StreamShape(LayoutOf(s), s.current, s.head);
    forall x | x in ParentsOf(s.events) ensures x != "" && forall n | n in ControlSlots(s) :: x != ControlId(n + 1) {
      EventsHavePlaces(LayoutOf(s), all, x);
      assert Some(x) in shape;
      hide LayoutOf, StreamShape;
      var i :| 0 <= i < |shape| && shape[i] == Some(x);
      assert js[i].transition.Mutation? && js[i].commitId == x;
      forall n | n in ControlSlots(s) ensures x != ControlId(n + 1) {
        assert ShapeOf(js)[n] == None;
        assert js[n].commitId == ControlId(n + 1);
      }
    }
  }

  /** The whole stream has the shape read off the session. */
  lemma TailCompletesShape(s: Legacy, all: seq<Id>, n: nat, at: Option<Id>, shape: Shape)
    requires Listed(ParentsOf(s.events), TipsOf(s.branches), OrderOf(s.branches)) == Ok(all)
    requires (n, at) == AliasTail(TipsOf(s.branches), OrderOf(s.branches), BranchesAfter(LayoutOf(s), all), Last(all))
    requires
      var switches := BranchAfter(LayoutOf(s), all) != s.current;
      var shown := if switches then TipOf(TipsOf(s.branches), s.current) else at;
      shape == EventsShape(LayoutOf(s), all) + Blanks(n) + Blanks(One(switches)) + Blanks(One(shown != s.head))
    ensures shape == StreamShape(LayoutOf(s), s.current, s.head)
  {
    hide EventsShape, BranchesAfter, AliasTail, Listed, ParentsOf, TipsOf, OrderOf;
    var switches := BranchAfter(LayoutOf(s), all) != s.current;
    BlanksAdd(EventsShape(LayoutOf(s), all), n, One(switches));
    BlanksAdd(EventsShape(LayoutOf(s), all), n + One(switches),
      One((if switches then TipOf(TipsOf(s.branches), s.current) else at) != s.head));
  }

  /** Replay accepts the stream exactly if the names are free. */
  lemma AcceptedIffFree(s: Legacy, d: Draft, tips: Tips, order: seq<Id>, all: seq<Id>)
    requires Written(s, d, all, |all|) && Plan(s, tips, order, all)
    requires ShapeOf(d.records) == StreamShape(LayoutOf(s), s.current, s.head)
    ensures Replay(s.session, s.base, d.records).Some? <==> NamesAreFree(s)
  {
    hide ParentsOf, Listed, NamesAreFree, Genuine, Replay, StreamShape, ShapeOf, LayoutOf;
    assert all[..|all|] == all;
    ListIsPlanned(s, tips, order, all);
    forall x | x in all ensures x in ParentsOf(s.events) {
      var i :| 0 <= i < |all| && all[i] == x;
    }
    if Replay(s.session, s.base, d.records).Some? {
      ReplayedIsClean(s, d.records);
      FreeIfClean(s, d.records, all);
    }
    if NamesAreFree(s) {
      CleanIfFree(s, d.records, all);
    }
  }

  predicate Plain(id: Id) {
    id != "" && !(CONTROL_PREFIX <= id)
  }

  /** Names without the synthetic prefix are always free. */
  lemma PlainNamesAreFree(s: Legacy)
    requires forall x | x in ParentsOf(s.events) :: Plain(x)
    ensures NamesAreFree(s)
  {
    forall x, n: nat | x in ParentsOf(s.events) && n in ControlSlots(s) ensures x != ControlId(n + 1) {
      assert CONTROL_PREFIX <= ControlId(n + 1);
    }
  }

  /**
    Whatever is imported is faithful, and an importable session is imported exactly if its names are
    free.
   */
  method ImportSession(s: Legacy) returns (r: Option<seq<Record>>)
    ensures r.Some? <==> Importable(s) && NamesAreFree(s)
    ensures r.Some? ==> Faithful(s, r.value)
  {
    hide Materialized, Listed, Follows, AllGenuine, EventsOnce, Faithful, LogIsSound, BranchesDiffer, NamesAreFree,
      LayoutOf, ShapeOf;
    hide ParentsOf, AliasTail, EventsShape, StreamShape, BranchesAfter, BranchAfter, Restrict, Reach;
    var named := ValidateSessionId(s.session);
    if !named || !s.frozen {
      return None;
    }
    var byId := ReadLog(s.events);
    if byId.None? {
      return None;
    }
    var read := ReadBranches(s.branches);
    if read.None? {
      return None;
    }
    var (tips, order) := read.value;
    if s.current !in tips {
      return None;
    }
    var parents := ParentsOf(s.events);
    var listed := ListEvents(parents, tips, order);
    RootedIsListed(parents, tips, order);
    if listed.Err? {
      return None;
    }
    var all := listed.value;
    CountIsCoverage(s, tips, order);
    if |all| != |s.events| {
      return None;
    }
    var drafted := WriteEvents(s, byId.value, tips, order, all);
    if drafted.None? {
      return None;
    }
    var d := WriteAliases(s, drafted.value, tips, order, all);
    ghost var at := d.head;
    d := SelectBranch(s, d, all);
    d := RestoreHead(s, d, parents, all);
    TailCompletesShape(
      s, all, AliasTail(tips, order, BranchesAfter(LayoutOf(s), all), Last(all)).0, at, ShapeOf(d.records));
    var history := ReplayBound(s.session, s.base, d.records);
    if history.None? {
      if s.head.Some? ==> s.head.value in parents {
        AcceptedIffFree(s, d, tips, order, all);
      }
      return None;
    }
    WrittenIsFaithful(s, d, all);
    AcceptedIffFree(s, d, tips, order, all);
    return Some(d.records);
  }
}
