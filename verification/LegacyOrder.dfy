/**
  The order in which a legacy session's branching events are imported: the path of `main` first, then
  what each further branch adds, root before leaf.
 */
module LegacyOrder {
  import opened Wrappers
  import opened Writes
  import opened History

  type Parents = map<Id, Option<Id>>
  type Tips = map<Id, Option<Id>>

  function TipOf(tips: Tips, name: Id): Option<Id> {
    if name in tips then tips[name] else None
  }

  function Path(parents: Parents, tips: Tips, name: Id): Result<seq<Id>> {
    Ancestors(parents, TipOf(tips, name), {})
  }

  /** The members of a path that are not listed yet. */
  function Missing(path: seq<Id>, done: seq<Id>): seq<Id> {
    if path == [] then []
    else
      var last := |path| - 1;
      Missing(path[..last], done) + (if path[last] in done then [] else [path[last]])
  }

  function Listed(parents: Parents, tips: Tips, order: seq<Id>): Result<seq<Id>> {
    if order == [] then Ok([])
    else
      var older :- Listed(parents, tips, order[..|order| - 1]);
      var path :- Path(parents, tips, order[|order| - 1]);
      Ok(older + Missing(path, older))
  }

  method Extend(done: seq<Id>, path: seq<Id>) returns (ordered: seq<Id>)
    requires Distinct(path)
    ensures ordered == done + Missing(path, done)
  {
    ordered := done;
    for i := 0 to |path|
      invariant ordered == done + Missing(path[..i], done)
    {
      assert path[..i + 1][..i] == path[..i];
      MissingIsWithin(path[..i], done);
      if path[i] !in ordered {
        ordered := ordered + [path[i]];
      }
    }
    assert path[..|path|] == path;
  }

  method ListEvents(parents: Parents, tips: Tips, order: seq<Id>) returns (r: Result<seq<Id>>)
    ensures r == Listed(parents, tips, order)
  {
    var ordered: seq<Id> := [];
    for k := 0 to |order|
      invariant Listed(parents, tips, order[..k]) == Ok(ordered)
    {
      assert order[..k + 1][..k] == order[..k];
      var path := AncestryOf(parents, TipOf(tips, order[k]));
      if path.Err? {
        ListedStops(parents, tips, order, k + 1);
        return Err;
      }
      PathIsChain(parents, TipOf(tips, order[k]), {});
      ordered := Extend(ordered, path.value);
    }
    assert order[..|order|] == order;
    return Ok(ordered);
  }

  lemma {:induction false} ListedStops(parents: Parents, tips: Tips, order: seq<Id>, n: nat)
    requires n <= |order| && Listed(parents, tips, order[..n]).Err?
    ensures Listed(parents, tips, order).Err?
  {
    if n < |order| {
      assert order[..|order| - 1][..n] == order[..n];
      ListedStops(parents, tips, order[..|order| - 1], n);
    } else {
      assert order[..n] == order;
    }
  }

  lemma {:induction false} MissingIsWithin(path: seq<Id>, done: seq<Id>)
    ensures forall x :: x in Missing(path, done) <==> x in path && x !in done
  {
    if path != [] {
      MissingIsWithin(path[..|path| - 1], done);
      assert path == path[..|path| - 1] + [path[|path| - 1]];
    }
  }

  // ---- paths ----

  predicate Distinct(ids: seq<Id>) {
    forall i, j | 0 <= i < j < |ids| :: ids[i] != ids[j]
  }

  /** From a root to the tip, each id the child of the one before it. */
  predicate IsChain(parents: Parents, path: seq<Id>, tip: Option<Id>) {
    && Last(path) == tip
    && (forall i | 0 <= i < |path| :: path[i] in parents && parents[path[i]] == Last(path[..i]))
  }

  lemma ChainStep(parents: Parents, front: seq<Id>, x: Id)
    ensures IsChain(parents, front + [x], Some(x)) <==> x in parents && IsChain(parents, front, parents[x])
  {
    var path := front + [x];
    assert path[..|front|] == front;
    if IsChain(parents, path, Some(x)) {
      assert path[|front|] in parents;
      forall i | 0 <= i < |front| ensures front[i] in parents && parents[front[i]] == Last(front[..i]) {
        assert path[i] == front[i] && path[..i] == front[..i];
      }
    }
    if x in parents && IsChain(parents, front, parents[x]) {
      forall i | 0 <= i < |path| ensures path[i] in parents && parents[path[i]] == Last(path[..i]) {
        if i < |front| {
          assert path[i] == front[i] && path[..i] == front[..i];
        }
      }
    }
  }

  lemma {:induction false} PathIsChain(parents: Parents, tip: Option<Id>, seen: set<Id>)
    requires Ancestors(parents, tip, seen).Ok?
    ensures IsChain(parents, Ancestors(parents, tip, seen).value, tip)
    ensures Distinct(Ancestors(parents, tip, seen).value)
    ensures forall x | x in Ancestors(parents, tip, seen).value :: x !in seen
    decreases parents.Keys - seen
  {
    if tip.Some? {
      PathIsChain(parents, parents[tip.value], seen + {tip.value});
      ChainStep(parents, Ancestors(parents, parents[tip.value], seen + {tip.value}).value, tip.value);
    }
  }

  /** Every listed id comes after its parent. */
  predicate ParentsFirst(parents: Parents, done: seq<Id>) {
    forall i | 0 <= i < |done| ::
      done[i] in parents && (parents[done[i]].Some? ==> parents[done[i]].value in done[..i])
  }

  lemma ParentIsDone(parents: Parents, done: seq<Id>, x: Id)
    requires ParentsFirst(parents, done) && x in done
    ensures x in parents && (parents[x].Some? ==> parents[x].value in done)
  {
    var i :| 0 <= i < |done| && done[i] == x;
    assert forall y | y in done[..i] :: y in done;
  }

  lemma ChainFront(parents: Parents, path: seq<Id>, tip: Option<Id>)
    requires IsChain(parents, path, tip) && path != []
    ensures
      var last := |path| - 1;
      && IsChain(parents, path[..last], Last(path[..last]))
      && path[last] in parents && parents[path[last]] == Last(path[..last])
  {
    var last := |path| - 1;
    assert forall i | 0 <= i < last :: path[..last][i] == path[i] && path[..last][..i] == path[..i];
  }

  /** The ids before place `n` are listed and those from there on are not. */
  predicate SplitAt(path: seq<Id>, done: seq<Id>, n: nat) {
    && n <= |path|
    && (forall i | 0 <= i < n :: path[i] in done)
    && (forall i | n <= i < |path| :: path[i] !in done)
  }

  lemma SplitGrows(path: seq<Id>, done: seq<Id>, n: nat)
    requires path != [] && SplitAt(path[..|path| - 1], done, n)
    requires path[|path| - 1] in done && |path| > 1 ==> path[|path| - 2] in done
    ensures path[|path| - 1] in done ==> n == |path| - 1
    ensures SplitAt(path, done, if path[|path| - 1] in done then |path| else n)
  {
    assert forall i | 0 <= i < |path| - 1 :: path[..|path| - 1][i] == path[i];
  }

  lemma TailGrows(path: seq<Id>, done: seq<Id>, n: nat)
    requires path != [] && n < |path| && Missing(path[..|path| - 1], done) == path[..|path| - 1][n..]
    requires path[|path| - 1] in done ==> n == |path| - 1
    ensures Missing(path, done) == path[if path[|path| - 1] in done then |path| else n..]
  {
    assert path[..|path| - 1][n..] + [path[|path| - 1]] == path[n..];
  }

  /** What a path adds to a list that has parents first is one stretch at its end. */
  lemma {:induction false} MissingIsSuffix(
    parents: Parents, path: seq<Id>, tip: Option<Id>, done: seq<Id>) returns (n: nat)
    requires IsChain(parents, path, tip) && ParentsFirst(parents, done)
    ensures SplitAt(path, done, n) && Missing(path, done) == path[n..]
  {
    if path == [] {
      return 0;
    }
    var last := |path| - 1;
    ChainFront(parents, path, tip);
    n := MissingIsSuffix(parents, path[..last], Last(path[..last]), done);
    if path[last] in done {
      ParentIsDone(parents, done, path[last]);
    }
    assert n <= last;
    hide IsChain, ParentsFirst, Missing, SplitAt;
    SplitGrows(path, done, n);
    TailGrows(path, done, n);
    n := if path[last] in done then |path| else n;
  }

  // ---- the list as a whole ----

  lemma {:induction false} ListIsOrdered(parents: Parents, tips: Tips, order: seq<Id>)
    requires Listed(parents, tips, order).Ok?
    ensures ParentsFirst(parents, Listed(parents, tips, order).value)
    ensures Distinct(Listed(parents, tips, order).value)
  {
    if order != [] {
      var name := order[|order| - 1];
      ListIsOrdered(parents, tips, order[..|order| - 1]);
      var older, path := Listed(parents, tips, order[..|order| - 1]).value, Path(parents, tips, name).value;
      PathIsChain(parents, TipOf(tips, name), {});
      var n := MissingIsSuffix(parents, path, TipOf(tips, name), older);
      SuffixKeepsOrder(parents, older, path, TipOf(tips, name), n);
    }
  }

  lemma SuffixStaysDistinct(older: seq<Id>, path: seq<Id>, n: nat)
    requires Distinct(older) && Distinct(path) && n <= |path|
    requires forall i | n <= i < |path| :: path[i] !in older
    ensures Distinct(older + path[n..])
  {
  }

  lemma ChainParent(parents: Parents, path: seq<Id>, tip: Option<Id>, p: nat)
    requires IsChain(parents, path, tip) && p < |path|
    ensures path[p] in parents && parents[path[p]] == if p == 0 then None else Some(path[p - 1])
  {
  }

  lemma SuffixKeepsOrder(parents: Parents, older: seq<Id>, path: seq<Id>, tip: Option<Id>, n: nat)
    requires ParentsFirst(parents, older) && Distinct(older)
    requires IsChain(parents, path, tip) && Distinct(path) && n <= |path|
    requires forall i | 0 <= i < n :: path[i] in older
    requires forall i | n <= i < |path| :: path[i] !in older
    ensures ParentsFirst(parents, older + path[n..]) && Distinct(older + path[n..])
  {
    var all := older + path[n..];
    SuffixStaysDistinct(older, path, n);
    hide Distinct;
    forall i | 0 <= i < |all|
      ensures all[i] in parents && (parents[all[i]].Some? ==> parents[all[i]].value in all[..i])
    {
      if i < |older| {
        assert all[..i] == older[..i];
      } else {
        var p := n + (i - |older|);
        ChainParent(parents, path, tip, p);
        hide IsChain, ParentsFirst;
        assert all[..i] == older + path[n..p];
        assert p > n ==> path[n..p][p - 1 - n] == path[p - 1];
      }
    }
  }

  lemma {:induction false} ListedPrefix(parents: Parents, tips: Tips, order: seq<Id>, k: nat)
    requires Listed(parents, tips, order).Ok? && k <= |order|
    ensures Listed(parents, tips, order[..k]).Ok?
    ensures Listed(parents, tips, order[..k]).value <= Listed(parents, tips, order).value
  {
    if k < |order| {
      assert order[..|order| - 1][..k] == order[..k];
      ListedPrefix(parents, tips, order[..|order| - 1], k);
    } else {
      assert order[..k] == order;
    }
  }

  /** How many ids the first `k` branches list. */
  function Reach(parents: Parents, tips: Tips, order: seq<Id>, k: nat): nat
    requires k <= |order|
  {
    var listed := Listed(parents, tips, order[..k]);
    if listed.Ok? then |listed.value| else 0
  }

  /** A branch's path is within what it and the branches before it list. */
  lemma PathIsListed(parents: Parents, tips: Tips, order: seq<Id>, k: nat, x: Id)
    requires Listed(parents, tips, order).Ok? && k < |order|
    ensures Path(parents, tips, order[k]).Ok? && Listed(parents, tips, order[..k + 1]).Ok?
    ensures x in Path(parents, tips, order[k]).value ==> x in Listed(parents, tips, order[..k + 1]).value
  {
    ListedPrefix(parents, tips, order, k + 1);
    assert order[..k + 1][..k] == order[..k];
    MissingIsWithin(Path(parents, tips, order[k]).value, Listed(parents, tips, order[..k]).value);
  }

  lemma ReachIsMonotone(parents: Parents, tips: Tips, order: seq<Id>, j: nat, k: nat)
    requires Listed(parents, tips, order).Ok? && j <= k <= |order|
    ensures Reach(parents, tips, order, j) <= Reach(parents, tips, order, k)
    ensures Listed(parents, tips, order[..j]).Ok? && Listed(parents, tips, order[..k]).Ok?
    ensures Listed(parents, tips, order[..j]).value <= Listed(parents, tips, order[..k]).value
  {
    ListedPrefix(parents, tips, order, k);
    assert order[..k][..j] == order[..j];
    ListedPrefix(parents, tips, order[..k], j);
  }

  lemma ListedStep(parents: Parents, tips: Tips, order: seq<Id>, k: nat)
    requires Listed(parents, tips, order).Ok? && k < |order|
    ensures Listed(parents, tips, order[..k]).Ok? && Path(parents, tips, order[k]).Ok?
    ensures
      var older, path := Listed(parents, tips, order[..k]).value, Path(parents, tips, order[k]).value;
      && Reach(parents, tips, order, k) == |older|
      && Reach(parents, tips, order, k + 1) == |older + Missing(path, older)|
      && older + Missing(path, older) <= Listed(parents, tips, order).value
      && (k == 0 ==> older == [])
  {
    hide Ancestors, Path, Missing;
    ListedPrefix(parents, tips, order, k + 1);
    assert order[..k + 1][..k] == order[..k];
  }

  /** The stretch a branch adds, as the end of its own path. */
  lemma StretchIsSuffix(parents: Parents, tips: Tips, order: seq<Id>, k: nat) returns (n: nat)
    requires Listed(parents, tips, order).Ok? && k < |order|
    ensures Path(parents, tips, order[k]).Ok? && n <= |Path(parents, tips, order[k]).value|
    ensures IsChain(parents, Path(parents, tips, order[k]).value, TipOf(tips, order[k]))
    ensures Listed(parents, tips, order[..k]).Ok?
    ensures
      var path := Path(parents, tips, order[k]).value;
      var lo, hi := Reach(parents, tips, order, k), Reach(parents, tips, order, k + 1);
      && lo <= hi <= |Listed(parents, tips, order).value| && hi - lo == |path| - n
      && (forall i | lo <= i < hi :: Listed(parents, tips, order).value[i] == path[n + (i - lo)])
      && (forall i | lo <= i < hi :: Listed(parents, tips, order).value[i] !in Listed(parents, tips, order[..k]).value)
  {
    hide Ancestors, Path, Listed, Reach, Missing, IsChain;
    ListedStep(parents, tips, order, k);
    var older, path := Listed(parents, tips, order[..k]).value, Path(parents, tips, order[k]).value;
    ListIsOrdered(parents, tips, order[..k]);
    ChainOfBranch(parents, tips, order[k]);
    n := MissingIsSuffix(parents, path, TipOf(tips, order[k]), older);
    var mine := older + Missing(path, older);
    forall i | |older| <= i < |mine| ensures Listed(parents, tips, order).value[i] == path[n + (i - |older|)] {
      assert mine[i] == path[n + (i - |older|)];
    }
  }

  lemma ChainOfBranch(parents: Parents, tips: Tips, name: Id)
    requires Path(parents, tips, name).Ok?
    ensures IsChain(parents, Path(parents, tips, name).value, TipOf(tips, name))
  {
    PathIsChain(parents, TipOf(tips, name), {});
  }

  /** Everything about one position of the list: whose it is, what precedes it, and what ends its stretch. */
  lemma PositionIsKnown(parents: Parents, tips: Tips, order: seq<Id>, k: nat, i: nat)
    requires Listed(parents, tips, order).Ok? && k < |order|
    requires Reach(parents, tips, order, k) <= i < Reach(parents, tips, order, k + 1)
    ensures
      var all := Listed(parents, tips, order).value;
      && i < |all| && all[i] in parents
      && Path(parents, tips, order[k]).Ok? && all[i] in Path(parents, tips, order[k]).value
      && (forall j | 0 <= j < k :: Path(parents, tips, order[j]).Ok? && all[i] !in Path(parents, tips, order[j]).value)
      && (i > Reach(parents, tips, order, k) ==> parents[all[i]] == Some(all[i - 1]))
      && (i == 0 ==> parents[all[i]] == None)
      && (i + 1 == Reach(parents, tips, order, k + 1) ==> TipOf(tips, order[k]) == Some(all[i]))
  {
    hide Ancestors, Path, Listed, Missing;
    ListedPrefix(parents, tips, order, k);
    var all := Listed(parents, tips, order).value;
    var n := StretchIsSuffix(parents, tips, order, k);
    var path, lo := Path(parents, tips, order[k]).value, Reach(parents, tips, order, k);
    var p := n + (i - lo);
    assert all[i] == path[p];
    if i > lo {
      assert all[i - 1] == path[p - 1] && Last(path[..p]) == Some(path[p - 1]);
    } else if i == 0 {
      FirstIsRoot(parents, tips, order);
    }
    forall j | 0 <= j < k ensures Path(parents, tips, order[j]).Ok? && all[i] !in Path(parents, tips, order[j]).value {
      PathIsListed(parents, tips, order, j, all[i]);
      ReachIsMonotone(parents, tips, order, j + 1, k);
    }
  }

  lemma FirstIsRoot(parents: Parents, tips: Tips, order: seq<Id>)
    requires Listed(parents, tips, order).Ok? && Listed(parents, tips, order).value != []
    ensures var first := Listed(parents, tips, order).value[0]; first in parents && parents[first] == None
  {
    hide Ancestors, Path, Listed, Missing;
    ListIsOrdered(parents, tips, order);
    var all := Listed(parents, tips, order).value;
    assert all[..0] == [];
  }

  /** A branch that adds nothing was wholly listed before; the first one adds nothing only if it is empty. */
  lemma FirstStretch(parents: Parents, tips: Tips, order: seq<Id>)
    requires Listed(parents, tips, order).Ok? && order != []
    ensures Reach(parents, tips, order, 0) == 0
    ensures Reach(parents, tips, order, 1) == 0 ==> TipOf(tips, order[0]) == None
  {
    ListedPrefix(parents, tips, order, 1);
    assert order[..1][..0] == [];
    PathIsChain(parents, TipOf(tips, order[0]), {});
    var path := Path(parents, tips, order[0]).value;
    MissingIsWithin(path, []);
    if path != [] {
      assert path[0] in Missing(path, []);
    }
  }

  /** The stretch a position falls in. */
  lemma {:induction false} StretchOf(parents: Parents, tips: Tips, order: seq<Id>, i: nat, n: nat) returns (k: nat)
    requires Listed(parents, tips, order).Ok? && n <= |order| && i < Reach(parents, tips, order, n)
    ensures k < n && Reach(parents, tips, order, k) <= i < Reach(parents, tips, order, k + 1)
  {
    if i < Reach(parents, tips, order, n - 1) {
      k := StretchOf(parents, tips, order, i, n - 1);
    } else {
      k := n - 1;
    }
  }
}
