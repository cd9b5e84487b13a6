/**
  The shape of an imported stream, read off the legacy events and branches alone: which of its places
  hold an event and which hold a synthetic record. No record is built to find it.
 */
module LegacyShape {
  import opened Wrappers
  import opened Writes
  import opened History
  import opened LegacyOrder

  datatype Layout = Layout(parents: Parents, tips: Tips, order: seq<Id>)

  /** The first branch in the order whose path holds the event. */
  function OwningBranch(parents: Parents, tips: Tips, order: seq<Id>, x: Id): Id {
    if order == [] then ""
    else
      var path := Path(parents, tips, order[0]);
      if path.Ok? && x in path.value then order[0] else OwningBranch(parents, tips, order[1..], x)
  }

  lemma {:induction false} OwnerIsFirst(parents: Parents, tips: Tips, order: seq<Id>, x: Id, k: nat)
    requires k < |order| && Path(parents, tips, order[k]).Ok? && x in Path(parents, tips, order[k]).value
    requires forall j | 0 <= j < k :: Path(parents, tips, order[j]).Ok? && x !in Path(parents, tips, order[j]).value
    ensures OwningBranch(parents, tips, order, x) == order[k]
  {
    if k > 0 {
      assert forall j | 0 <= j < k :: order[j] == order[0] || order[j] == order[1..][j - 1];
      OwnerIsFirst(parents, tips, order[1..], x, k - 1);
    }
  }

  function BranchOwning(l: Layout, x: Id): Id {
    OwningBranch(l.parents, l.tips, l.order, x)
  }

  function ParentIn(l: Layout, x: Id): Option<Id> {
    if x in l.parents then l.parents[x] else None
  }

  function BranchAfter(l: Layout, ids: seq<Id>): Id {
    if ids == [] then MAIN else BranchOwning(l, ids[|ids| - 1])
  }

  function BranchesAfter(l: Layout, ids: seq<Id>): set<Id> {
    if ids == [] then {MAIN} else BranchesAfter(l, ids[..|ids| - 1]) + {BranchOwning(l, ids[|ids| - 1])}
  }

  function One(b: bool): nat {
    if b then 1 else 0
  }

  /** Synthetic records between the events before and the event `x`: a checkout, a branch creation, a switch. */
  function Lead(l: Layout, ids: seq<Id>, x: Id): nat {
    if BranchOwning(l, x) == BranchAfter(l, ids) then 0
    else One(Last(ids) != ParentIn(l, x)) + One(BranchOwning(l, x) !in BranchesAfter(l, ids)) + 1
  }

  /** Some for an event, None for a synthetic record. */
  type Shape = seq<Option<Id>>

  function Blanks(n: nat): (s: Shape)
    ensures |s| == n && forall i | 0 <= i < n :: s[i] == None
  {
    seq(n, _ => None)
  }

  function EventsShape(l: Layout, ids: seq<Id>): Shape {
    if ids == [] then []
    else
      var front, last := ids[..|ids| - 1], ids[|ids| - 1];
      EventsShape(l, front) + Blanks(Lead(l, front, last)) + [Some(last)]
  }

  /** Synthetic records for branches that own no event, and the head they leave. */
  function AliasTail(tips: Tips, names: seq<Id>, known: set<Id>, head: Option<Id>): (nat, Option<Id>) {
    if names == [] then (0, head)
    else
      var (n, at) := AliasTail(tips, names[..|names| - 1], known, head);
      var name := names[|names| - 1];
      if name in known then (n, at) else (n + One(at != TipOf(tips, name)) + 1, TipOf(tips, name))
  }

  /** Synthetic records after the last event: aliases, the selected branch, the shown head. */
  function TailLength(l: Layout, ids: seq<Id>, current: Id, head: Option<Id>): nat {
    var (n, at) := AliasTail(l.tips, l.order, BranchesAfter(l, ids), Last(ids));
    if BranchAfter(l, ids) != current then n + 1 + One(TipOf(l.tips, current) != head) else n + One(at != head)
  }

  function StreamShape(l: Layout, current: Id, head: Option<Id>): Shape {
    var listed := Listed(l.parents, l.tips, l.order);
    var ids := if listed.Ok? then listed.value else [];
    EventsShape(l, ids) + Blanks(TailLength(l, ids, current, head))
  }

  /** Every listed event has a place, and nothing else has one. */
  lemma {:induction false} EventsHavePlaces(l: Layout, ids: seq<Id>, x: Id)
    ensures Some(x) in EventsShape(l, ids) <==> x in ids
  {
    if ids != [] {
      var front, last := ids[..|ids| - 1], ids[|ids| - 1];
      EventsHavePlaces(l, front, x);
      assert ids == front + [last];
    }
  }

  lemma ShapeOfNext(l: Layout, ids: seq<Id>, x: Id)
    ensures EventsShape(l, ids + [x]) == EventsShape(l, ids) + Blanks(Lead(l, ids, x)) + [Some(x)]
    ensures BranchAfter(l, ids + [x]) == BranchOwning(l, x)
    ensures BranchesAfter(l, ids + [x]) == BranchesAfter(l, ids) + {BranchOwning(l, x)}
  {
    assert (ids + [x])[..|ids|] == ids;
  }
}
