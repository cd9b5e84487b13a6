/**
  Forks: a work file with checkpoints, staged changes and an operation log, changed in place.
 */
module Forks {
  import opened Wrappers
  import opened Documents
  import opened Writes

  const MAX_CHECKPOINTS := 10
  const MAX_STAGED_CHANGES := 20
  const MAX_CHECKPOINT_BYTES := 500 * 1024 * 1024

  /** A state revision is a content hash or a freshly minted name; the hash is taken to be injective. */
  datatype Tag = OfContent(doc: Doc) | Minted(name: string)

  datatype Operation = Operation(sequence: nat, kind: string, before: Tag, after: Tag)

  datatype ForkBundle = ForkBundle(base: Doc, atomic: bool, ops: seq<WriteOp>)

  /** `bundle` is None for a change of another kind than a canonical write. */
  datatype Change = Change(id: Id, createdAt: nat, bundle: Option<ForkBundle>)

  datatype Checkpoint = Checkpoint(id: Id, createdAt: nat, snapshot: Doc, recalc: bool, at: Tag, logLength: nat)

  datatype Fork = Fork(
    work: Doc, content: Doc, state: Tag, recalc: bool, log: seq<Operation>, staged: seq<Change>,
    checkpoints: seq<Checkpoint>)

  /** What a fork is made of besides its own state: operation semantics and file sizes. */
  datatype Host = Host(engine: Engine, size: Doc -> nat)

  // ---- limits ----

  function TotalSize(h: Host, cps: seq<Checkpoint>): nat {
    if cps == [] then 0 else h.size(cps[0].snapshot) + TotalSize(h, cps[1..])
  }

  predicate WithinLimits(h: Host, cps: seq<Checkpoint>) {
    |cps| <= 1 || (|cps| <= MAX_CHECKPOINTS && TotalSize(h, cps) <= MAX_CHECKPOINT_BYTES)
  }

  /** The oldest go first, as few as possible, and never the last one. */
  function Retained(h: Host, cps: seq<Checkpoint>): seq<Checkpoint>
    decreases |cps|
  {
    if WithinLimits(h, cps) then cps else Retained(h, cps[1..])
  }

  lemma {:induction false} RetainedIsLongestSuffix(h: Host, cps: seq<Checkpoint>) returns (n: nat)
    ensures n <= |cps| && Retained(h, cps) == cps[n..]
    ensures WithinLimits(h, cps[n..]) && (cps != [] ==> n < |cps|)
    ensures forall k | 0 <= k < n :: !WithinLimits(h, cps[k..])
    decreases |cps|
  {
    if WithinLimits(h, cps) {
      n := 0;
    } else {
      n := RetainedIsLongestSuffix(h, cps[1..]);
      assert forall k | 1 <= k <= |cps| :: cps[1..][k - 1..] == cps[k..];
      n := n + 1;
    }
  }

  lemma {:induction false} DroppingToCount(h: Host, cps: seq<Checkpoint>, n: nat)
    requires n <= |cps| && (n == 0 || |cps| - n >= MAX_CHECKPOINTS)
    ensures Retained(h, cps[n..]) == Retained(h, cps)
    decreases n
  {
    if n == 0 {
      assert cps[0..] == cps;
    } else {
      DroppingToCount(h, cps, n - 1);
      assert cps[n - 1..][1..] == cps[n..];
    }
  }

  // ---- filters ----

  function KeptUntil(cps: seq<Checkpoint>, time: nat): seq<Checkpoint> {
    if cps == [] then []
    else
      KeptUntil(cps[..|cps| - 1], time) + (if cps[|cps| - 1].createdAt > time then [] else [cps[|cps| - 1]])
  }

  function ChangesUntil(staged: seq<Change>, time: nat): seq<Change> {
    if staged == [] then []
    else
      ChangesUntil(staged[..|staged| - 1], time)
        + (if staged[|staged| - 1].createdAt > time then [] else [staged[|staged| - 1]])
  }

  function CheckpointId(c: Checkpoint): Id {
    c.id
  }

  function ChangeId(c: Change): Id {
    c.id
  }

  /** The first place something of that name stands at. */
  function PlaceOf<T>(items: seq<T>, name: T -> Id, id: Id): (i: Option<nat>)
    ensures i.Some? ==>
      i.value < |items| && name(items[i.value]) == id && forall k | 0 <= k < i.value :: name(items[k]) != id
    ensures i.None? ==> forall k | 0 <= k < |items| :: name(items[k]) != id
  {
    if items == [] then None
    else if name(items[0]) == id then Some(0)
    else
      var rest := PlaceOf(items[1..], name, id);
      if rest.Some? then Some(rest.value + 1) else None
  }

  function RemoveAt<T>(s: seq<T>, i: nat): (r: seq<T>)
    requires i < |s|
    ensures |r| == |s| - 1
    ensures forall k | 0 <= k < |r| :: r[k] == s[if k < i then k else k + 1]
  {
    s[..i] + s[i + 1..]
  }

  function NewestStaged(staged: seq<Change>): seq<Change> {
    if |staged| > MAX_STAGED_CHANGES then staged[|staged| - MAX_STAGED_CHANGES..] else staged
  }

  // ---- calls ----

  datatype Call =
    | Save(expected: Tag, id: Id, now: nat, minted: string)
    | Delete(expected: Tag, id: Id, minted: string)
    | Restore(expected: Tag, id: Id, minted: string)
    | ApplyStaged(expected: Tag, id: Id, minted: string)
    | Discard(expected: Tag, id: Id, minted: string)
    | Stage(expected: Tag, change: Change, minted: string)
    | Write(expected: Tag, after: Doc, minted: string)
    | Recalculate(expected: Tag, evaluated: Doc, complete: bool, minted: string)
    | Touch(outside: Doc)

  /** A work file changed behind the fork's back is noticed before anything else happens. */
  function Synced(f: Fork): Fork {
    if f.work != f.content then f.(content := f.work, state := OfContent(f.work)) else f
  }

  function Logged(f: Fork, kind: string, before: Tag, after: Tag): Fork {
    f.(log := f.log + [Operation(if f.log == [] then 1 else f.log[|f.log| - 1].sequence + 1, kind, before, after)])
  }

  function Bundled(h: Host, f: Fork, bundle: ForkBundle): Option<Doc> {
    if bundle.base != f.content || !bundle.atomic || f.work != bundle.base then None
    else
      var run := RunOps(h.engine, f.work, bundle.ops, false);
      if run.failure.Some? then None else Some(run.doc)
  }

  function Saved(h: Host, f: Fork, id: Id, now: nat, minted: string): Fork {
    f.(
      checkpoints := Retained(h, f.checkpoints + [Checkpoint(id, now, f.work, f.recalc, f.state, |f.log|)]),
      state := Minted(minted))
  }

  function Restored(f: Fork, target: Checkpoint, minted: string): Fork {
    Fork(
      target.snapshot, target.snapshot, Minted(minted), target.recalc,
      if target.logLength < |f.log| then f.log[..target.logLength] else f.log,
      ChangesUntil(f.staged, target.createdAt), KeptUntil(f.checkpoints, target.createdAt))
  }

  /** One call: the fork after it, and whether it succeeded. */
  function Step(h: Host, f: Fork, call: Call): (Fork, bool) {
    if call.Touch? then (f.(work := call.outside), true)
    else
      var s := Synced(f);
      if s.state != call.expected then (s, false)
      else
        match call
        case Save(_, id, now, minted) => (Saved(h, s, id, now, minted), true)
        case Delete(_, id, minted) =>
          (match PlaceOf(s.checkpoints, CheckpointId, id)
           case None => (s, false)
           case Some(i) => (s.(checkpoints := RemoveAt(s.checkpoints, i), state := Minted(minted)), true))
        case Restore(_, id, minted) =>
          (match PlaceOf(s.checkpoints, CheckpointId, id)
           case None => (s, false)
           case Some(i) => (Restored(s, s.checkpoints[i], minted), true))
        case ApplyStaged(_, id, minted) =>
          (match PlaceOf(s.staged, ChangeId, id)
           case None => (s, false)
           case Some(i) =>
             if s.staged[i].bundle.None? then (s, false)
             else
               var bundle := s.staged[i].bundle.value;
               match Bundled(h, s, bundle)
               case None => (s, false)
               case Some(after) =>
                 var moved :=
                   s.(work := after, content := after, state := Minted(minted), recalc := bundle.ops != [] || s.recalc);
                 (Logged(moved, "write", s.state, Minted(minted)).(staged := RemoveAt(s.staged, i)), true))
        case Discard(_, id, minted) =>
          (match PlaceOf(s.staged, ChangeId, id)
           case None => (s, false)
           case Some(i) => (s.(staged := RemoveAt(s.staged, i), state := Minted(minted)), true))
        case Stage(_, change, minted) =>
          (s.(staged := NewestStaged(s.staged + [change]), state := Minted(minted)), true)
        case Write(_, after, minted) =>
          (Logged(
             s.(work := after, content := after, state := Minted(minted), recalc := true),
             "write", s.state, Minted(minted)), true)
        case Recalculate(_, evaluated, complete, minted) =>
          (Logged(
             s.(work := evaluated, content := evaluated, state := Minted(minted), recalc := !complete),
             "recalculate", s.state, Minted(minted)), true)
        case Touch(_) => (s, true)
  }

  function RunTo(h: Host, f: Fork, calls: seq<Call>): Fork
    decreases |calls|
  {
    if calls == [] then f else RunTo(h, Step(h, f, calls[0]).0, calls[1..])
  }

  // ---- what checkpoints remember ----

  datatype Moment = Moment(work: Doc, recalc: bool, log: seq<Operation>)

  function Now(f: Fork): Moment {
    Moment(f.work, f.recalc, f.log)
  }

  /** Whoever bears this id still holds the moment, its log a prefix of the present one. */
  ghost predicate Recalls(f: Fork, id: Id, m: Moment) {
    forall k | 0 <= k < |f.checkpoints| && f.checkpoints[k].id == id ::
      && f.checkpoints[k].snapshot == m.work && f.checkpoints[k].recalc == m.recalc
      && f.checkpoints[k].logLength == |m.log| && m.log <= f.log
  }

  /** Checkpoints in order of creation, none claiming more of the log than there is. */
  ghost predicate Ordered(f: Fork) {
    && (forall i | 0 <= i < |f.checkpoints| :: f.checkpoints[i].logLength <= |f.log|)
    && (forall i, j | 0 <= i < j < |f.checkpoints| ::
          && f.checkpoints[i].createdAt < f.checkpoints[j].createdAt
          && f.checkpoints[i].logLength <= f.checkpoints[j].logLength
          && f.checkpoints[i].id != f.checkpoints[j].id)
  }

  /** A new checkpoint is later than every surviving one, and its id is not in use. */
  predicate Timely(f: Fork, call: Call) {
    call.Save? ==> forall k | 0 <= k < |f.checkpoints| ::
      f.checkpoints[k].createdAt < call.now && f.checkpoints[k].id != call.id
  }

  predicate AllTimely(h: Host, f: Fork, calls: seq<Call>)
    decreases |calls|
  {
    calls == [] || (Timely(f, calls[0]) && AllTimely(h, Step(h, f, calls[0]).0, calls[1..]))
  }

  lemma {:induction false} KeptMembers(cps: seq<Checkpoint>, time: nat, c: Checkpoint)
    ensures c in KeptUntil(cps, time) <==> c in cps && c.createdAt <= time
  {
    if cps != [] {
      var front := cps[..|cps| - 1];
      KeptMembers(front, time, c);
      assert c in cps <==> c in front || c == cps[|cps| - 1];
    }
  }

  lemma KeptSnoc(front: seq<Checkpoint>, last: Checkpoint, time: nat)
    ensures KeptUntil(front + [last], time) == if last.createdAt > time then KeptUntil(front, time)
      else KeptUntil(front, time) + [last]
  {
    assert (front + [last])[..|front|] == front;
  }

  lemma {:induction false} KeptAll(cps: seq<Checkpoint>, time: nat)
    requires forall i | 0 <= i < |cps| :: cps[i].createdAt <= time
    ensures KeptUntil(cps, time) == cps
  {
    if cps != [] {
      KeptAll(cps[..|cps| - 1], time);
      assert cps[..|cps| - 1] + [cps[|cps| - 1]] == cps;
    }
  }

  /** In order of creation, what a restore keeps is a prefix. */
  lemma {:induction false} KeptIsPrefix(cps: seq<Checkpoint>, time: nat) returns (n: nat)
    requires forall i, j | 0 <= i < j < |cps| :: cps[i].createdAt < cps[j].createdAt
    ensures n <= |cps| && KeptUntil(cps, time) == cps[..n]
    ensures forall i | 0 <= i < |cps| :: i < n <==> cps[i].createdAt <= time
  {
    if cps == [] {
      return 0;
    }
    var front, last := cps[..|cps| - 1], cps[|cps| - 1];
    if last.createdAt <= time {
      KeptAll(cps, time);
      n := |cps|;
    } else {
      n := KeptIsPrefix(front, time);
      LateIsDropped(front, last, time, n);
      assert front + [last] == cps;
    }
  }

  lemma LateIsDropped(front: seq<Checkpoint>, last: Checkpoint, time: nat, n: nat)
    requires last.createdAt > time && n <= |front| && KeptUntil(front, time) == front[..n]
    requires forall i | 0 <= i < |front| :: i < n <==> front[i].createdAt <= time
    ensures
      var cps := front + [last];
      KeptUntil(cps, time) == cps[..n] && forall i | 0 <= i < |cps| :: i < n <==> cps[i].createdAt <= time
  {
    KeptSnoc(front, last, time);
  }

  lemma RemovalKeepsOrder(f: Fork, i: nat)
    requires Ordered(f) && i < |f.checkpoints|
    ensures Ordered(f.(checkpoints := RemoveAt(f.checkpoints, i)))
    ensures forall id, m: Moment | Recalls(f, id, m) :: Recalls(f.(checkpoints := RemoveAt(f.checkpoints, i)), id, m)
  {
    var less := RemoveAt(f.checkpoints, i);
    assert forall k | 0 <= k < |less| :: less[k] == f.checkpoints[if k < i then k else k + 1];
  }

  lemma SuffixKeepsOrder(f: Fork, n: nat)
    requires Ordered(f) && n <= |f.checkpoints|
    ensures Ordered(f.(checkpoints := f.checkpoints[n..]))
    ensures forall id, m: Moment | Recalls(f, id, m) :: Recalls(f.(checkpoints := f.checkpoints[n..]), id, m)
  {
    assert forall k | 0 <= k < |f.checkpoints| - n :: f.checkpoints[n..][k] == f.checkpoints[n + k];
  }

  lemma SaveKeepsOrder(h: Host, f: Fork, id: Id, now: nat, minted: string)
    requires Ordered(f)
    requires forall k | 0 <= k < |f.checkpoints| :: f.checkpoints[k].createdAt < now && f.checkpoints[k].id != id
    ensures Ordered(Saved(h, f, id, now, minted))
    ensures Recalls(Saved(h, f, id, now, minted), id, Now(f))
    ensures forall other, m: Moment | other != id && Recalls(f, other, m) ::
      Recalls(Saved(h, f, id, now, minted), other, m)
  {
    hide Ordered, Recalls, Retained, WithinLimits;
    var all := f.(checkpoints := f.checkpoints + [Checkpoint(id, now, f.work, f.recalc, f.state, |f.log|)]);
    AppendKeepsOrder(f, id, now);
    var n := RetainedIsLongestSuffix(h, all.checkpoints);
    SuffixKeepsOrder(all, n);
    StateIsNoMatter(all.(checkpoints := all.checkpoints[n..]), Saved(h, f, id, now, minted));
  }

  lemma AppendKeepsOrder(f: Fork, id: Id, now: nat)
    requires Ordered(f)
    requires forall k | 0 <= k < |f.checkpoints| :: f.checkpoints[k].createdAt < now && f.checkpoints[k].id != id
    ensures
      var all := f.(checkpoints := f.checkpoints + [Checkpoint(id, now, f.work, f.recalc, f.state, |f.log|)]);
      && Ordered(all) && Recalls(all, id, Now(f))
      && forall other, m: Moment | other != id && Recalls(f, other, m) :: Recalls(all, other, m)
  {
  }

  /** Order and memory are about checkpoints and log only. */
  lemma StateIsNoMatter(f: Fork, g: Fork)
    requires g.checkpoints == f.checkpoints && g.log == f.log
    ensures Ordered(f) ==> Ordered(g)
    ensures forall id, m: Moment | Recalls(f, id, m) :: Recalls(g, id, m)
  {
  }

  lemma RestoreKeepsOrder(f: Fork, i: nat, minted: string)
    requires Ordered(f) && i < |f.checkpoints|
    ensures Ordered(Restored(f, f.checkpoints[i], minted))
    ensures forall id, m: Moment | Recalls(f, id, m) :: Recalls(Restored(f, f.checkpoints[i], minted), id, m)
  {
    hide KeptUntil, ChangesUntil;
    var n := KeptIsPrefix(f.checkpoints, f.checkpoints[i].createdAt);
    var g := Restored(f, f.checkpoints[i], minted);
    assert i < n && (i + 1 < |f.checkpoints| ==> f.checkpoints[i + 1].createdAt > f.checkpoints[i].createdAt);
    assert forall k | i < k < |f.checkpoints| :: f.checkpoints[k].createdAt > f.checkpoints[i].createdAt;
    assert n == i + 1;
    assert forall k | 0 <= k < |g.checkpoints| ::
      g.checkpoints[k] == f.checkpoints[k] && g.checkpoints[k].logLength <= f.checkpoints[i].logLength;
  }

  /** Restoring a checkpoint that recalls a moment brings that moment back. */
  lemma RestoreReturns(f: Fork, i: nat, m: Moment, minted: string)
    requires Ordered(f) && i < |f.checkpoints| && Recalls(f, f.checkpoints[i].id, m)
    ensures Now(Restored(f, f.checkpoints[i], minted)) == m
  {
    assert f.log[..f.checkpoints[i].logLength] == m.log;
  }

  lemma LongerLogKeeps(f: Fork, g: Fork)
    requires Ordered(f) && g.checkpoints == f.checkpoints && f.log <= g.log
    ensures Ordered(g) && forall id, m: Moment | Recalls(f, id, m) :: Recalls(g, id, m)
  {
  }

  /** Every call keeps checkpoints in order and every remembered moment intact. */
  lemma StepKeepsMoments(h: Host, f: Fork, call: Call, id: Id, m: Moment)
    requires Ordered(f) && Timely(f, call)
    ensures Ordered(Step(h, f, call).0)
    ensures Recalls(f, id, m) && !(call.Save? && call.id == id) ==> Recalls(Step(h, f, call).0, id, m)
  {
    hide Retained, KeptUntil, ChangesUntil, NewestStaged, Bundled, RunOps, Saved, Restored;
    var s, g := Synced(f), Step(h, f, call).0;
    LongerLogKeeps(f, s);
    if call.Touch? || s.state != call.expected {
      LongerLogKeeps(s, g);
    } else {
      match call
      case Save(_, own, now, minted) => SaveKeepsOrder(h, s, own, now, minted);
      case Delete(_, own, _) =>
        if i :| PlaceOf(s.checkpoints, CheckpointId, own) == Some(i) {
          RemovalKeepsOrder(s, i);
          LongerLogKeeps(s.(checkpoints := RemoveAt(s.checkpoints, i)), g);
        }
      case Restore(_, own, minted) =>
        if i :| PlaceOf(s.checkpoints, CheckpointId, own) == Some(i) {
          RestoreKeepsOrder(s, i, minted);
        }
      case _ => LongerLogKeeps(s, g);
    }
  }

  /** Over any run whose checkpoints are taken at increasing times, what one remembers stays true of it. */
  lemma {:induction false} RunsKeepMoments(h: Host, f: Fork, calls: seq<Call>, id: Id, m: Moment)
    requires Ordered(f) && AllTimely(h, f, calls) && Recalls(f, id, m)
    requires forall k | 0 <= k < |calls| :: !(calls[k].Save? && calls[k].id == id)
    ensures Ordered(RunTo(h, f, calls)) && Recalls(RunTo(h, f, calls), id, m)
    decreases |calls|
  {
    hide Step;
    if calls != [] {
      StepKeepsMoments(h, f, calls[0], id, m);
      RunsKeepMoments(h, Step(h, f, calls[0]).0, calls[1..], id, m);
    }
  }

  /**
    Whatever happens between saving a checkpoint and restoring it, a restore that succeeds brings
    back the work file, the recalculation flag and the whole operation log of the moment it was saved.
   */
  lemma RestoreIsExact(h: Host, f: Fork, save: Call, calls: seq<Call>, restore: Call)
    requires Ordered(f) && save.Save? && Timely(f, save) && Step(h, f, save).1
    requires AllTimely(h, Step(h, f, save).0, calls)
    requires forall k | 0 <= k < |calls| :: !(calls[k].Save? && calls[k].id == save.id)
    requires restore.Restore? && restore.id == save.id
    requires Step(h, RunTo(h, Step(h, f, save).0, calls), restore).1
    ensures Now(Step(h, RunTo(h, Step(h, f, save).0, calls), restore).0) == Now(f)
  {
    hide RunOps, Retained, KeptUntil, Ordered, Recalls, Saved, Restored, Bundled, RemoveAt, NewestStaged, PlaceOf;
    var s := Synced(f);
    LongerLogKeeps(f, s);
    SaveKeepsOrder(h, s, save.id, save.now, save.minted);
    var saved := Step(h, f, save).0;
    RunsKeepMoments(h, saved, calls, save.id, Now(f));
    var late := Synced(RunTo(h, saved, calls));
    LongerLogKeeps(RunTo(h, saved, calls), late);
    var i := PlaceOf(late.checkpoints, CheckpointId, save.id).value;
    RestoreReturns(late, i, Now(f), restore.minted);
  }

  /**
    Exactly when restoring one checkpoint spares another: it is dropped as later, or its log is no
    longer than what the restore leaves.
   */
  lemma RestoreSparesIff(f: Fork, i: nat, j: nat, m: Moment, minted: string)
    requires i < |f.checkpoints| && j < |f.checkpoints| && Recalls(f, f.checkpoints[j].id, m)
    ensures Recalls(Restored(f, f.checkpoints[i], minted), f.checkpoints[j].id, m) <==>
      (f.checkpoints[j].logLength <= f.checkpoints[i].logLength
       || forall k | 0 <= k < |f.checkpoints| && f.checkpoints[k].id == f.checkpoints[j].id ::
            f.checkpoints[k].createdAt > f.checkpoints[i].createdAt)
  {
    var c, t, g := f.checkpoints[j], f.checkpoints[i], Restored(f, f.checkpoints[i], minted);
    if k :| 0 <= k < |f.checkpoints| && f.checkpoints[k].id == c.id && f.checkpoints[k].createdAt <= t.createdAt {
      KeptMembers(f.checkpoints, t.createdAt, f.checkpoints[k]);
      var l :| 0 <= l < |g.checkpoints| && g.checkpoints[l] == f.checkpoints[k];
    } else {
      forall l | 0 <= l < |g.checkpoints| && g.checkpoints[l].id == c.id ensures false {
        KeptMembers(f.checkpoints, t.createdAt, g.checkpoints[l]);
      }
    }
    forall l | 0 <= l < |g.checkpoints| && g.checkpoints[l].id == c.id ensures g.checkpoints[l] in f.checkpoints {
      KeptMembers(f.checkpoints, t.createdAt, g.checkpoints[l]);
    }
  }

  lemma TwoFit(h: Host, a: Checkpoint, b: Checkpoint)
    requires h.size(a.snapshot) + h.size(b.snapshot) <= MAX_CHECKPOINT_BYTES
    ensures [a] + [b] == [a, b] && Retained(h, [a, b]) == [a, b] && Retained(h, [a]) == [a] && [] + [a] == [a]
  {
    assert [a, b][1..] == [b] && [b][1..] == [];
    assert TotalSize(h, [a, b]) == h.size(a.snapshot) + TotalSize(h, [b]);
  }

  /** Two checkpoints saved at one instant: restoring the first leaves the second without its log. */
  lemma TiedTimesLoseOperations(h: Host, f: Fork, after: Doc)
    requires f.checkpoints == [] && f.work == f.content && f.log == []
    requires h.size(f.work) + h.size(after) <= MAX_CHECKPOINT_BYTES
    ensures
      var saved := Step(h, f, Save(f.state, "a", 7, "1")).0;
      var written := Step(h, saved, Write(Minted("1"), after, "2")).0;
      var twice := Step(h, written, Save(Minted("2"), "b", 7, "3")).0;
      var first := Step(h, twice, Restore(Minted("3"), "a", "4")).0;
      var second := Step(h, first, Restore(Minted("4"), "b", "5"));
      second.1 && second.0.work == written.work && |written.log| == 1 && second.0.log == []
  {
    hide PlaceOf, Retained, KeptUntil, TotalSize, RunOps, Bundled, RemoveAt, NewestStaged, ChangesUntil;
    var a, b := Checkpoint("a", 7, f.work, f.recalc, f.state, 0), Checkpoint("b", 7, after, true, Minted("2"), 1);
    TwoFit(h, a, b);
    TwoStay(a, b);
    var saved := Step(h, f, Save(f.state, "a", 7, "1")).0;
    assert saved.checkpoints == [a];
    var written := Step(h, saved, Write(Minted("1"), after, "2")).0;
    var twice := Step(h, written, Save(Minted("2"), "b", 7, "3")).0;
    assert twice.checkpoints == [a, b];
    var first := Step(h, twice, Restore(Minted("3"), "a", "4")).0;
    assert first.checkpoints == [a, b] && first.log == [];
  }

  /** A restore to the time both were made keeps both, and each is found at its place. */
  lemma TwoStay(a: Checkpoint, b: Checkpoint)
    requires a.createdAt == b.createdAt && a.id != b.id
    ensures KeptUntil([a, b], a.createdAt) == [a, b]
    ensures PlaceOf([a, b], CheckpointId, a.id) == Some(0) && PlaceOf([a, b], CheckpointId, b.id) == Some(1)
  {
    KeptSnoc([], a, a.createdAt);
    KeptSnoc([a], b, a.createdAt);
    assert [] + [a] == [a] && [a] + [b] == [a, b];
  }

  // ---- the fork in place ----

  class ForkContext {
    const host: Host
    var work: Doc
    var contentRevision: Doc
    var stateRevision: Tag
    var recalcNeeded: bool
    var operations: seq<Operation>
    var stagedChanges: seq<Change>
    var checkpoints: seq<Checkpoint>

    function State(): Fork
      reads this
    {
      Fork(work, contentRevision, stateRevision, recalcNeeded, operations, stagedChanges, checkpoints)
    }

    constructor (host: Host, work: Doc)
      ensures this.host == host && State() == Fork(work, work, OfContent(work), false, [], [], []) && Ordered(State())
    {
      this.host, this.work, contentRevision, stateRevision := host, work, work, OfContent(work);
      recalcNeeded, operations, stagedChanges, checkpoints := false, [], [], [];
    }

    method SyncRevisions() returns (revision: Tag)
      modifies this`contentRevision, this`stateRevision
      ensures State() == Synced(old(State())) && revision == stateRevision
    {
      if work != contentRevision {
        contentRevision, stateRevision := work, OfContent(work);
      }
      return stateRevision;
    }

    method PushOperation(kind: string, before: Tag, after: Tag)
      modifies this`operations
      ensures State() == Logged(old(State()), kind, before, after)
    {
      var sequence := if operations == [] then 1 else operations[|operations| - 1].sequence + 1;
      operations := operations + [Operation(sequence, kind, before, after)];
    }

    method SnapshotBytes() returns (total: nat)
      ensures total == TotalSize(host, checkpoints)
    {
      total := 0;
      assert checkpoints[|checkpoints|..] == [];
      for i := |checkpoints| downto 0
        invariant total == TotalSize(host, checkpoints[i..])
      {
        assert checkpoints[i..][1..] == checkpoints[i + 1..];
        total := host.size(checkpoints[i].snapshot) + total;
      }
      assert checkpoints[0..] == checkpoints;
    }

    /** First by count, then by size, always from the oldest. */
    method EnforceCheckpointLimits()
      modifies this`checkpoints
      ensures State() == old(State()).(checkpoints := Retained(host, old(checkpoints)))
    {
      ghost var was, n := checkpoints, 0;
      assert was[0..] == was;
      while |checkpoints| > MAX_CHECKPOINTS
        invariant n <= |was| && checkpoints == was[n..] && (n == 0 || |checkpoints| >= MAX_CHECKPOINTS)
        decreases |checkpoints|
      {
        n := n + 1;
        assert checkpoints[1..] == was[n..];
        checkpoints := checkpoints[1..];
      }
      DroppingToCount(host, was, n);
      while true
        invariant |checkpoints| <= MAX_CHECKPOINTS && Retained(host, checkpoints) == Retained(host, was)
        decreases |checkpoints|
      {
        var total := SnapshotBytes();
        if total <= MAX_CHECKPOINT_BYTES || |checkpoints| <= 1 {
          break;
        }
        checkpoints := checkpoints[1..];
      }
    }

    method CreateCheckpoint(expected: Tag, id: Id, now: nat, minted: string) returns (ok: bool)
      modifies this
      ensures (State(), ok) == Step(host, old(State()), Save(expected, id, now, minted))
    {
      var before := SyncRevisions();
      if before != expected {
        return false;
      }
      checkpoints := checkpoints + [Checkpoint(id, now, work, recalcNeeded, before, |operations|)];
      EnforceCheckpointLimits();
      stateRevision := Minted(minted);
      return true;
    }

    method FindCheckpoint(id: Id) returns (at: Option<nat>)
      ensures at == PlaceOf(checkpoints, CheckpointId, id)
    {
      for i := 0 to |checkpoints|
        invariant forall k | 0 <= k < i :: checkpoints[k].id != id
      {
        if checkpoints[i].id == id {
          return Some(i);
        }
      }
      return None;
    }

    method DeleteCheckpoint(expected: Tag, id: Id, minted: string) returns (ok: bool)
      modifies this
      ensures (State(), ok) == Step(host, old(State()), Delete(expected, id, minted))
    {
      var before := SyncRevisions();
      if before != expected {
        return false;
      }
      var index := FindCheckpoint(id);
      if index.None? {
        return false;
      }
      checkpoints := RemoveAt(checkpoints, index.value);
      stateRevision := Minted(minted);
      return true;
    }

    method KeepChangesUntil(time: nat)
      modifies this`stagedChanges
      ensures stagedChanges == ChangesUntil(old(stagedChanges), time)
    {
      var kept: seq<Change> := [];
      for i := 0 to |stagedChanges|
        invariant stagedChanges == old(stagedChanges) && kept == ChangesUntil(stagedChanges[..i], time)
      {
        assert stagedChanges[..i + 1][..i] == stagedChanges[..i];
        if stagedChanges[i].createdAt <= time {
          kept := kept + [stagedChanges[i]];
        }
      }
      assert stagedChanges[..|stagedChanges|] == stagedChanges;
      stagedChanges := kept;
    }

    method KeepCheckpointsUntil(time: nat)
      modifies this`checkpoints
      ensures checkpoints == KeptUntil(old(checkpoints), time)
    {
      var kept: seq<Checkpoint> := [];
      for i := 0 to |checkpoints|
        invariant checkpoints == old(checkpoints) && kept == KeptUntil(checkpoints[..i], time)
      {
        assert checkpoints[..i + 1][..i] == checkpoints[..i];
        if checkpoints[i].createdAt <= time {
          kept := kept + [checkpoints[i]];
        }
      }
      assert checkpoints[..|checkpoints|] == checkpoints;
      checkpoints := kept;
    }

    method RestoreCheckpoint(expected: Tag, id: Id, minted: string) returns (ok: bool)
      modifies this
      ensures (State(), ok) == Step(host, old(State()), Restore(expected, id, minted))
    {
      hide PlaceOf, KeptUntil, ChangesUntil, RemoveAt, RunOps, Bundled, Retained, NewestStaged, Logged, Saved;
      var before := SyncRevisions();
      if before != expected {
        return false;
      }
      var index := FindCheckpoint(id);
      if index.None? {
        return false;
      }
      var target := checkpoints[index.value];
      work := target.snapshot;
      KeepChangesUntil(target.createdAt);
      KeepCheckpointsUntil(target.createdAt);
      if target.logLength < |operations| {
        operations := operations[..target.logLength];
      }
      recalcNeeded, contentRevision, stateRevision := target.recalc, work, Minted(minted);
      return true;
    }

    method FindChange(id: Id) returns (at: Option<nat>)
      ensures at == PlaceOf(stagedChanges, ChangeId, id)
    {
      for i := 0 to |stagedChanges|
        invariant forall k | 0 <= k < i :: stagedChanges[k].id != id
      {
        if stagedChanges[i].id == id {
          return Some(i);
        }
      }
      return None;
    }

    method ApplyStagedChange(expected: Tag, id: Id, minted: string) returns (ok: bool)
      modifies this
      ensures (State(), ok) == Step(host, old(State()), ApplyStaged(expected, id, minted))
    {
      hide PlaceOf, RemoveAt, RunOps, Retained, NewestStaged, Saved, Restored;
      var before := SyncRevisions();
      if before != expected {
        return false;
      }
      var index := FindChange(id);
      if index.None? || stagedChanges[index.value].bundle.None? {
        return false;
      }
      var bundle := stagedChanges[index.value].bundle.value;
      if bundle.base != contentRevision || !bundle.atomic || work != bundle.base {
        return false;
      }
      var doc, results, failure := ApplyAtomicCandidate(host.engine, work, bundle.ops);
      if failure.Some? {
        return false;
      }
      work, contentRevision, stateRevision := doc, doc, Minted(minted);
      recalcNeeded := bundle.ops != [] || recalcNeeded;
      PushOperation("write", before, Minted(minted));
      stagedChanges := RemoveAt(stagedChanges, index.value);
      return true;
    }

    method DiscardStagedChange(expected: Tag, id: Id, minted: string) returns (ok: bool)
      modifies this
      ensures (State(), ok) == Step(host, old(State()), Discard(expected, id, minted))
    {
      var before := SyncRevisions();
      if before != expected {
        return false;
      }
      var index := FindChange(id);
      if index.None? {
        return false;
      }
      stagedChanges := RemoveAt(stagedChanges, index.value);
      stateRevision := Minted(minted);
      return true;
    }

    method StageChange(expected: Tag, change: Change, minted: string) returns (ok: bool)
      modifies this
      ensures (State(), ok) == Step(host, old(State()), Call.Stage(expected, change, minted))
    {
      var before := SyncRevisions();
      if before != expected {
        return false;
      }
      stagedChanges := stagedChanges + [change];
      ghost var all := stagedChanges;
      ghost var n := 0;
      assert all[0..] == all;
      while |stagedChanges| > MAX_STAGED_CHANGES
        invariant n <= |all| && stagedChanges == all[n..] && (n == 0 || |stagedChanges| >= MAX_STAGED_CHANGES)
        invariant State() == Synced(old(State())).(staged := stagedChanges)
        decreases |stagedChanges|
      {
        n := n + 1;
        assert stagedChanges[1..] == all[n..];
        stagedChanges := stagedChanges[1..];
      }
      assert stagedChanges == NewestStaged(all);
      stateRevision := Minted(minted);
      return true;
    }

    method CommitWrite(expected: Tag, after: Doc, minted: string) returns (ok: bool)
      modifies this
      ensures (State(), ok) == Step(host, old(State()), Write(expected, after, minted))
    {
      var current := SyncRevisions();
      if current != expected {
        return false;
      }
      work, recalcNeeded, contentRevision, stateRevision := after, true, after, Minted(minted);
      PushOperation("write", expected, Minted(minted));
      return true;
    }
  }
}
