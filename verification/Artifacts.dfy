/**
  Rendered artifacts held for browser sessions: at most eight to a session and 64 MiB in all, the
  least recently used going first, within the session and then over every session.
 */
module Artifacts {
  import opened Wrappers
  import opened Sequences

  type Blob = seq<bv8>

  datatype Slot = Slot(handle: string, bytes: Blob, lastUsed: nat)

  type Shelves = map<string, seq<Slot>>

  const MAX_ARTIFACTS_PER_SESSION := 8
  const MAX_TOTAL_ARTIFACT_BYTES := 64 * 1024 * 1024

  // ---- byte accounting ----

  function SlotBytes(slots: seq<Slot>): nat {
    if slots == [] then 0 else SlotBytes(slots[..|slots| - 1]) + |slots[|slots| - 1].bytes|
  }

  /** The stored bytes of every session, summed in some order. */
  ghost function Total(m: Shelves): nat
    decreases |m|
  {
    if m == map[] then 0
    else
      var s :| s in m;
      SlotBytes(m[s]) + Total(m - {s})
  }

  /** The order does not matter. */
  lemma {:induction false} TotalSplits(m: Shelves, s: string)
    requires s in m
    ensures Total(m) == SlotBytes(m[s]) + Total(m - {s})
    decreases |m|
  {
    var first :| first in m && Total(m) == SlotBytes(m[first]) + Total(m - {first});
    if first != s {
      TotalSplits(m - {first}, s);
      TotalSplits(m - {s}, first);
      assert m - {first} - {s} == m - {s} - {first};
    }
  }

  lemma TotalOfUpdate(m: Shelves, s: string, slots: seq<Slot>)
    ensures Total(m[s := slots]) == SlotBytes(slots) + Total(m - {s})
  {
    TotalSplits(m[s := slots], s);
    assert m[s := slots] - {s} == m - {s};
  }

  lemma {:induction false} BytesOfDrop(slots: seq<Slot>, i: nat)
    requires i < |slots|
    ensures SlotBytes(Dropped(slots, i)) + |slots[i].bytes| == SlotBytes(slots)
  {
    var last := |slots| - 1;
    if i < last {
      BytesOfDrop(slots[..last], i);
      assert Dropped(slots, i)[..last - 1] == Dropped(slots[..last], i);
    } else {
      assert Dropped(slots, i) == slots[..last];
    }
  }

  lemma {:induction false} BytesOfTouch(slots: seq<Slot>, i: nat, now: nat)
    requires i < |slots|
    ensures SlotBytes(slots[i := slots[i].(lastUsed := now)]) == SlotBytes(slots)
  {
    var last := |slots| - 1;
    var touched := slots[i := slots[i].(lastUsed := now)];
    if i < last {
      BytesOfTouch(slots[..last], i, now);
      assert touched[..last] == slots[..last][i := slots[i].(lastUsed := now)];
    } else {
      assert touched[..last] == slots[..last];
    }
  }

  // ---- removing and keeping ----

  function Dropped(slots: seq<Slot>, i: nat): seq<Slot>
    requires i < |slots|
  {
    slots[..i] + slots[i + 1..]
  }

  /** One slot less; a session with none left has no entry. */
  function Without(m: Shelves, s: string, i: nat): Shelves
    requires s in m && i < |m[s]|
  {
    if |m[s]| == 1 then m - {s} else m[s := Dropped(m[s], i)]
  }

  lemma TotalOfWithout(m: Shelves, s: string, i: nat)
    requires s in m && i < |m[s]|
    ensures Total(Without(m, s, i)) + |m[s][i].bytes| == Total(m)
  {
    TotalSplits(m, s);
    BytesOfDrop(m[s], i);
    TotalOfUpdate(m, s, Dropped(m[s], i));
    if |m[s]| == 1 {
      assert Dropped(m[s], i) == [];
    }
  }

  /** The slots used after a given tick, in place. */
  function Newer(slots: seq<Slot>, floor: nat): (r: seq<Slot>)
    ensures |r| <= |slots|
    ensures forall k | 0 <= k < |r| :: r[k].lastUsed > floor && r[k] in slots
  {
    if slots == [] then []
    else
      var last := |slots| - 1;
      Newer(slots[..last], floor) + (if slots[last].lastUsed > floor then [slots[last]] else [])
  }

  /** Everything used after a given tick: what evicting the least recently used leaves. */
  function NewerThan(m: Shelves, floor: nat): Shelves {
    map s | s in m && Newer(m[s], floor) != [] :: Newer(m[s], floor)
  }

  lemma {:induction false} NewerTwice(slots: seq<Slot>, a: nat, b: nat)
    requires a <= b
    ensures Newer(Newer(slots, a), b) == Newer(slots, b)
  {
    if slots != [] {
      var last := |slots| - 1;
      NewerTwice(slots[..last], a, b);
      NewerConcat(Newer(slots[..last], a), if slots[last].lastUsed > a then [slots[last]] else [], b);
    }
  }

  lemma NewerSnoc(slots: seq<Slot>, slot: Slot, floor: nat)
    ensures Newer(slots + [slot], floor) == if slot.lastUsed > floor then Newer(slots, floor) + [slot]
      else Newer(slots, floor)
  {
    assert (slots + [slot])[..|slots|] == slots;
  }

  lemma {:induction false} NewerConcat(x: seq<Slot>, y: seq<Slot>, floor: nat)
    ensures Newer(x + y, floor) == Newer(x, floor) + Newer(y, floor)
  {
    if y == [] {
      assert x + y == x;
    } else {
      var front, last := y[..|y| - 1], y[|y| - 1];
      NewerConcat(x, front, floor);
      assert y == front + [last];
      Regroup(x, front, [last]);
      NewerSnoc(x + front, last, floor);
      NewerSnoc(front, last, floor);
      hide Newer;
      Regroup(Newer(x, floor), Newer(front, floor), [last]);
    }
  }

  lemma {:induction false} AllNewer(slots: seq<Slot>, floor: nat)
    requires forall k | 0 <= k < |slots| :: slots[k].lastUsed > floor
    ensures Newer(slots, floor) == slots
  {
    if slots != [] {
      AllNewer(slots[..|slots| - 1], floor);
    }
  }

  lemma {:induction false} NewerDrops(slots: seq<Slot>, i: nat)
    requires i < |slots|
    requires forall k | 0 <= k < |slots| && k != i :: slots[k].lastUsed > slots[i].lastUsed
    ensures Newer(slots, slots[i].lastUsed) == Dropped(slots, i)
  {
    hide Newer;
    var front, last := slots[..|slots| - 1], |slots| - 1;
    assert slots == front + [slots[last]];
    NewerSnoc(front, slots[last], slots[i].lastUsed);
    if i < last {
      NewerDrops(front, i);
      assert Dropped(slots, i) == Dropped(front, i) + [slots[last]];
    } else {
      AllNewer(front, slots[i].lastUsed);
      assert Dropped(slots, i) == front;
    }
  }

  // ---- ages ----

  /** No two slots were last used at the same tick, and none after the clock. */
  ghost predicate Stamped(m: Shelves, clock: nat) {
    && (forall s, i | s in m && 0 <= i < |m[s]| :: 0 < m[s][i].lastUsed <= clock)
    && (forall s, i, t, j | s in m && t in m && 0 <= i < |m[s]| && 0 <= j < |m[t]|
         && m[s][i].lastUsed == m[t][j].lastUsed :: s == t && i == j)
  }

  ghost predicate NoEmpty(m: Shelves) {
    forall s | s in m :: m[s] != []
  }

  ghost predicate IsOldest(m: Shelves, s: string, i: nat) {
    && s in m && i < |m[s]|
    && forall t, j | t in m && 0 <= j < |m[t]| :: m[s][i].lastUsed <= m[t][j].lastUsed
  }

  lemma NothingIsOlder(m: Shelves, clock: nat)
    requires NoEmpty(m) && Stamped(m, clock)
    ensures NewerThan(m, 0) == m
  {
    hide Newer;
    forall s | s in m ensures Newer(m[s], 0) == m[s] {
      AllNewer(m[s], 0);
    }
  }

  /** Evicting the oldest slot raises the floor to its tick. */
  lemma EvictionRaisesFloor(m: Shelves, clock: nat, s: string, i: nat)
    requires NoEmpty(m) && Stamped(m, clock) && IsOldest(m, s, i)
    ensures Without(m, s, i) == NewerThan(m, m[s][i].lastUsed)
  {
    hide Newer;
    var floor := m[s][i].lastUsed;
    assert Newer(m[s], floor) == Dropped(m[s], i) by {
      assert forall k | 0 <= k < |m[s]| && k != i :: m[s][k].lastUsed != floor;
      NewerDrops(m[s], i);
    }
    forall t | t in m && t != s ensures Newer(m[t], floor) == m[t] {
      OthersAreNewer(m, clock, s, i, t);
    }
    hide Stamped, IsOldest;
    var kept: Shelves := NewerThan(m, floor);
    assert |Dropped(m[s], i)| == |m[s]| - 1;
    assert kept.Keys == Without(m, s, i).Keys;
  }

  lemma OthersAreNewer(m: Shelves, clock: nat, s: string, i: nat, t: string)
    requires Stamped(m, clock) && IsOldest(m, s, i) && t in m && t != s
    ensures Newer(m[t], m[s][i].lastUsed) == m[t]
  {
    forall k | 0 <= k < |m[t]| ensures m[t][k].lastUsed > m[s][i].lastUsed {
      assert m[t][k].lastUsed != m[s][i].lastUsed;
    }
    AllNewer(m[t], m[s][i].lastUsed);
  }

  lemma FloorsCompose(m: Shelves, a: nat, b: nat)
    requires a <= b
    ensures NewerThan(NewerThan(m, a), b) == NewerThan(m, b)
  {
    hide Newer;
    forall s | s in m ensures Newer(Newer(m[s], a), b) == Newer(m[s], b) {
      NewerTwice(m[s], a, b);
    }
    assert forall s | s in m && Newer(m[s], b) != [] :: Newer(m[s], a) != [];
  }

  /** Positions survive as a sub-list, so ages stay distinct. */
  lemma {:induction false} NewerIsSublist(slots: seq<Slot>, floor: nat, k: nat, l: nat) returns (i: nat, j: nat)
    requires k < l < |Newer(slots, floor)|
    ensures i < j < |slots| && Newer(slots, floor)[k] == slots[i] && Newer(slots, floor)[l] == slots[j]
  {
    var last := |slots| - 1;
    var front := Newer(slots[..last], floor);
    if l < |front| {
      i, j := NewerIsSublist(slots[..last], floor, k, l);
    } else {
      i := FindSlot(slots[..last], floor, k);
      j := last;
    }
  }

  lemma FindSlot(slots: seq<Slot>, floor: nat, k: nat) returns (i: nat)
    requires k < |Newer(slots, floor)|
    ensures i < |slots| && Newer(slots, floor)[k] == slots[i]
  {
    i :| 0 <= i < |slots| && slots[i] == Newer(slots, floor)[k];
  }

  lemma NewerStaysStamped(m: Shelves, clock: nat, floor: nat)
    requires Stamped(m, clock)
    ensures Stamped(NewerThan(m, floor), clock) && NoEmpty(NewerThan(m, floor))
  {
    var n: Shelves := NewerThan(m, floor);
    forall s, i | s in n && 0 <= i < |n[s]| ensures 0 < n[s][i].lastUsed <= clock {
      var p := FindSlot(m[s], floor, i);
    }
    forall s, i, t, j | s in n && t in n && 0 <= i < |n[s]| && 0 <= j < |n[t]| && n[s][i].lastUsed == n[t][j].lastUsed
      ensures s == t && i == j
    {
      var p := FindSlot(m[s], floor, i);
      var q := FindSlot(m[t], floor, j);
      if s == t && i != j {
        var a, b := NewerIsSublist(m[s], floor, if i < j then i else j, if i < j then j else i);
      }
    }
  }

  lemma {:induction false} NewerShrinks(slots: seq<Slot>, a: nat, b: nat)
    requires a <= b
    ensures SlotBytes(Newer(slots, b)) <= SlotBytes(Newer(slots, a))
  {
    if slots != [] {
      var last := |slots| - 1;
      NewerShrinks(slots[..last], a, b);
      SlotBytesSnoc(Newer(slots[..last], a), slots[last]);
      SlotBytesSnoc(Newer(slots[..last], b), slots[last]);
    }
  }

  lemma SlotBytesSnoc(slots: seq<Slot>, slot: Slot)
    ensures SlotBytes(slots + [slot]) == SlotBytes(slots) + |slot.bytes|
    ensures slots + [] == slots
  {
    assert (slots + [slot])[..|slots|] == slots;
  }

  /** Raising the floor never frees fewer bytes. */
  lemma {:induction false} TotalShrinks(m: Shelves, a: nat, b: nat)
    requires a <= b
    ensures Total(NewerThan(m, b)) <= Total(NewerThan(m, a))
    decreases |m|
  {
    if s :| s in m {
      var rest := m - {s};
      TotalShrinks(rest, a, b);
      TotalWithOne(m, s, a);
      TotalWithOne(m, s, b);
      NewerShrinks(m[s], a, b);
    } else {
      assert NewerThan(m, a) == NewerThan(m, b);
    }
  }

  lemma TotalWithOne(m: Shelves, s: string, floor: nat)
    requires s in m
    ensures Total(NewerThan(m, floor)) == SlotBytes(Newer(m[s], floor)) + Total(NewerThan(m - {s}, floor))
  {
    hide Newer;
    var rest: Shelves := NewerThan(m - {s}, floor);
    if Newer(m[s], floor) == [] {
      assert NewerThan(m, floor) == rest;
    } else {
      assert NewerThan(m, floor) == rest[s := Newer(m[s], floor)];
      assert rest - {s} == rest;
      TotalOfUpdate(rest, s, Newer(m[s], floor));
    }
  }

  /** One eviction: the floor rises to the victim's tick, and no tick between made any difference. */
  lemma EvictionStep(m: Shelves, clock: nat, floor: nat, s: string, i: nat)
    requires Stamped(m, clock) && IsOldest(NewerThan(m, floor), s, i)
    ensures
      var now: Shelves := NewerThan(m, floor);
      var next := now[s][i].lastUsed;
      && floor < next <= clock
      && Without(now, s, i) == NewerThan(m, next)
      && Total(now) == Total(NewerThan(m, next)) + |now[s][i].bytes|
      && NoEmpty(NewerThan(m, next)) && Stamped(NewerThan(m, next), clock)
      && (forall f | floor <= f < next :: NewerThan(m, f) == now)
  {
    hide Newer;
    var now: Shelves := NewerThan(m, floor);
    var next := now[s][i].lastUsed;
    NewerStaysStamped(m, clock, floor);
    NewerStaysStamped(m, clock, next);
    EvictionRaisesFloor(now, clock, s, i);
    FloorsCompose(m, floor, next);
    TotalOfWithout(now, s, i);
    forall f | floor <= f < next ensures NewerThan(m, f) == now {
      FloorsCompose(m, floor, f);
      NothingNewBelow(now, f, s, i);
    }
  }

  lemma NothingNewBelow(m: Shelves, floor: nat, s: string, i: nat)
    requires NoEmpty(m) && IsOldest(m, s, i) && floor < m[s][i].lastUsed
    ensures NewerThan(m, floor) == m
  {
    hide Newer;
    forall t | t in m ensures Newer(m[t], floor) == m[t] {
      AllNewer(m[t], floor);
    }
  }

  // ---- the store ----

  predicate Holds(slots: seq<Slot>, handle: string) {
    exists k | 0 <= k < |slots| :: slots[k].handle == handle
  }

  predicate HandlesDiffer(slots: seq<Slot>) {
    forall i, j | 0 <= i < j < |slots| :: slots[i].handle != slots[j].handle
  }

  function SlotsOf(m: Shelves, s: string): seq<Slot> {
    if s in m then m[s] else []
  }

  function Pushed(m: Shelves, s: string, slot: Slot): Shelves {
    m[s := SlotsOf(m, s) + [slot]]
  }

  /** Within the cap, unless one oversized artifact is all there is. */
  ghost predicate CapHeld(m: Shelves, bytes: nat) {
    bytes <= MAX_TOTAL_ARTIFACT_BYTES || exists s :: s in m && m.Keys == {s} && |m[s]| == 1
  }

  ghost predicate Sound(m: Shelves, bytes: nat, clock: nat) {
    && bytes == Total(m) && NoEmpty(m) && Stamped(m, clock) && CapHeld(m, bytes)
    && forall s | s in m :: |m[s]| <= MAX_ARTIFACTS_PER_SESSION && HandlesDiffer(m[s])
  }

  ghost predicate IsTouched(m: Shelves, s: string, handle: string, now: nat, m': Shelves) {
    s in m && exists i | 0 <= i < |m[s]| ::
      m[s][i].handle == handle && m' == m[s := m[s][i := m[s][i].(lastUsed := now)]]
  }

  /** A full session gives up the slot it used longest ago. */
  ghost predicate IsTrimmed(m: Shelves, s: string, m': Shelves) {
    if |SlotsOf(m, s)| < MAX_ARTIFACTS_PER_SESSION then m' == m
    else exists i | 0 <= i < |m[s]| ::
      (forall k | 0 <= k < |m[s]| :: m[s][i].lastUsed <= m[s][k].lastUsed) && m' == Without(m, s, i)
  }

  /** The lowest floor that leaves room, if any does. */
  ghost predicate IsRoomFor(m: Shelves, floor: nat, size: nat) {
    && (Total(NewerThan(m, floor)) + size <= MAX_TOTAL_ARTIFACT_BYTES || NewerThan(m, floor) == map[])
    && forall f | 0 <= f < floor :: Total(NewerThan(m, f)) + size > MAX_TOTAL_ARTIFACT_BYTES
  }

  ghost predicate IsInserted(m: Shelves, s: string, slot: Slot, m': Shelves) {
    exists trimmed: Shelves, floor: nat ::
      IsTrimmed(m, s, trimmed) && IsRoomFor(trimmed, floor, |slot.bytes|)
        && m' == Pushed(NewerThan(trimmed, floor), s, slot)
  }

  lemma TrimmedHolds(m: Shelves, s: string, i: nat, handle: string)
    requires s in m && i < |m[s]| && !Holds(m[s], handle) && |m[s]| > 1
    ensures !Holds(Without(m, s, i)[s], handle)
  {
    forall k | 0 <= k < |m[s]| - 1 ensures Without(m, s, i)[s][k].handle != handle {
      SurvivorsKeep(m, s, i, s, k);
    }
  }

  lemma TrimmedIsOlder(m: Shelves, s: string, m': Shelves, clock: nat)
    requires IsTrimmed(m, s, m')
    requires forall t, j | t in m && 0 <= j < |m[t]| :: m[t][j].lastUsed < clock
    ensures forall t, j | t in m' && 0 <= j < |m'[t]| :: m'[t][j].lastUsed < clock
  {
    if |SlotsOf(m, s)| >= MAX_ARTIFACTS_PER_SESSION {
      var i :| 0 <= i < |m[s]| && m' == Without(m, s, i);
      forall t, j | t in m' && 0 <= j < |m'[t]| ensures m'[t][j].lastUsed < clock {
        SurvivorsKeep(m, s, i, t, j);
      }
    }
  }

  lemma NewerKeepsHandles(slots: seq<Slot>, floor: nat)
    requires HandlesDiffer(slots)
    ensures HandlesDiffer(Newer(slots, floor))
  {
    forall k, l | 0 <= k < l < |Newer(slots, floor)|
      ensures Newer(slots, floor)[k].handle != Newer(slots, floor)[l].handle
    {
      var i, j := NewerIsSublist(slots, floor, k, l);
    }
  }

  /** Room-making keeps everything a push relies on. */
  lemma RoomKeepsSound(m: Shelves, clock: nat, floor: nat, s: string, handle: string)
    requires Stamped(m, clock) && !Holds(SlotsOf(m, s), handle) && |SlotsOf(m, s)| < MAX_ARTIFACTS_PER_SESSION
    requires forall t, j | t in m && 0 <= j < |m[t]| :: m[t][j].lastUsed < clock
    requires forall t | t in m :: |m[t]| <= MAX_ARTIFACTS_PER_SESSION && HandlesDiffer(m[t])
    ensures
      var n: Shelves := NewerThan(m, floor);
      && Stamped(n, clock) && NoEmpty(n) && !Holds(SlotsOf(n, s), handle) && |SlotsOf(n, s)| < MAX_ARTIFACTS_PER_SESSION
      && (forall t, j | t in n && 0 <= j < |n[t]| :: n[t][j].lastUsed < clock)
      && (forall t | t in n :: |n[t]| <= MAX_ARTIFACTS_PER_SESSION && HandlesDiffer(n[t]))
  {
    NewerStaysStamped(m, clock, floor);
    hide Stamped, Newer, HandlesDiffer;
    var n: Shelves := NewerThan(m, floor);
    forall t | t in n ensures HandlesDiffer(n[t]) && forall j | 0 <= j < |n[t]| :: n[t][j].lastUsed < clock {
      NewerKeepsHandles(m[t], floor);
      forall j | 0 <= j < |n[t]| ensures n[t][j].lastUsed < clock {
        var i := FindSlot(m[t], floor, j);
      }
    }
    if s in n {
      forall j | 0 <= j < |n[s]| ensures n[s][j].handle != handle {
        var i := FindSlot(m[s], floor, j);
      }
    }
  }

  lemma PushKeepsSound(m: Shelves, bytes: nat, clock: nat, s: string, slot: Slot)
    requires bytes == Total(m) && NoEmpty(m) && Stamped(m, clock)
    requires forall t | t in m :: |m[t]| <= MAX_ARTIFACTS_PER_SESSION && HandlesDiffer(m[t])
    requires !Holds(SlotsOf(m, s), slot.handle) && |SlotsOf(m, s)| < MAX_ARTIFACTS_PER_SESSION
    requires forall t, j | t in m && 0 <= j < |m[t]| :: m[t][j].lastUsed < clock
    requires slot.lastUsed == clock > 0
    requires bytes + |slot.bytes| <= MAX_TOTAL_ARTIFACT_BYTES || m == map[]
    ensures Sound(Pushed(m, s, slot), bytes + |slot.bytes|, clock)
  {
    PushedTotal(m, s, slot);
    PushKeepsStamps(m, clock, s, slot);
    PushKeepsHandles(SlotsOf(m, s), slot);
    hide Stamped, Total, HandlesDiffer, Holds, CapHeld;
    PushKeepsCap(m, bytes, s, slot);
  }

  lemma PushKeepsCap(m: Shelves, bytes: nat, s: string, slot: Slot)
    requires bytes + |slot.bytes| <= MAX_TOTAL_ARTIFACT_BYTES || m == map[]
    ensures CapHeld(Pushed(m, s, slot), bytes + |slot.bytes|)
  {
    if m == map[] {
      assert Pushed(m, s, slot).Keys == {s} && |Pushed(m, s, slot)[s]| == 1;
    }
  }

  lemma PushKeepsHandles(slots: seq<Slot>, slot: Slot)
    requires HandlesDiffer(slots) && !Holds(slots, slot.handle)
    ensures HandlesDiffer(slots + [slot])
  {
  }

  lemma PushedTotal(m: Shelves, s: string, slot: Slot)
    ensures Total(Pushed(m, s, slot)) == Total(m) + |slot.bytes|
  {
    hide Total, SlotBytes;
    TotalOfUpdate(m, s, SlotsOf(m, s) + [slot]);
    SlotBytesSnoc(SlotsOf(m, s), slot);
    if s in m {
      TotalSplits(m, s);
    } else {
      assert m - {s} == m;
      assert SlotBytes([]) == 0 by {
        NoSlotsNoBytes();
      }
    }
  }

  lemma NoSlotsNoBytes()
    ensures SlotBytes([]) == 0
  {
  }

  lemma PushKeepsStamps(m: Shelves, clock: nat, s: string, slot: Slot)
    requires Stamped(m, clock) && slot.lastUsed == clock > 0
    requires forall t, j | t in m && 0 <= j < |m[t]| :: m[t][j].lastUsed < clock
    ensures Stamped(Pushed(m, s, slot), clock)
  {
    var n: Shelves := Pushed(m, s, slot);
    forall t, k | t in n && 0 <= k < |n[t]|
      ensures if t == s && k == |SlotsOf(m, s)| then n[t][k] == slot else t in m && k < |m[t]| && n[t][k] == m[t][k]
    {
    }
  }

  class SessionStore {
    var artifacts: Shelves
    var artifactBytes: nat
    var clock: nat

    ghost predicate Valid()
      reads this
    {
      Sound(artifacts, artifactBytes, clock)
    }

    constructor ()
      ensures Valid() && artifacts == map[]
    {
      artifacts, artifactBytes, clock := map[], 0, 0;
    }

    method Tick() returns (now: nat)
      modifies this`clock
      ensures now == clock == old(clock) + 1
    {
      clock := clock + 1;
      return clock;
    }

    /** The position of a handle in a session. */
    method Find(slots: seq<Slot>, handle: string) returns (at: Option<nat>)
      ensures at.Some? ==> at.value < |slots| && slots[at.value].handle == handle
      ensures at.Some? <==> Holds(slots, handle)
    {
      for i := 0 to |slots|
        invariant forall k | 0 <= k < i :: slots[k].handle != handle
      {
        if slots[i].handle == handle {
          return Some(i);
        }
      }
      return None;
    }

    /** Forgets one artifact; subtracting its bytes never goes below zero. */
    method RemoveArtifact(session: string, handle: string) returns (removed: bool)
      requires Valid()
      modifies this`artifacts, this`artifactBytes
      ensures Valid()
      ensures removed <==> Holds(SlotsOf(old(artifacts), session), handle)
      ensures !removed ==> artifacts == old(artifacts)
      ensures removed ==> exists i | 0 <= i < |old(artifacts)[session]| ::
        old(artifacts)[session][i].handle == handle && artifacts == Without(old(artifacts), session, i)
    {
      var at := Find(SlotsOf(artifacts, session), handle);
      if at.None? {
        return false;
      }
      RemovalKeepsSound(artifacts, artifactBytes, clock, session, at.value);
      artifactBytes := artifactBytes - |artifacts[session][at.value].bytes|;
      artifacts := Without(artifacts, session, at.value);
      return true;
    }

    /** A disposed session takes its artifacts with it and leaves every other session's alone. */
    method DropArtifacts(session: string)
      requires Valid()
      modifies this`artifacts, this`artifactBytes
      ensures Valid() && artifacts == old(artifacts) - {session}
    {
      if session in artifacts {
        DropKeepsSound(artifacts, artifactBytes, clock, session);
        artifactBytes := artifactBytes - SlotBytes(artifacts[session]);
        artifacts := artifacts - {session};
      }
    }

    /** The slot of one session that was used longest ago. */
    method OldestOf(slots: seq<Slot>) returns (i: nat)
      requires slots != []
      ensures i < |slots| && forall k | 0 <= k < |slots| :: slots[i].lastUsed <= slots[k].lastUsed
    {
      i := 0;
      for j := 1 to |slots|
        invariant i < |slots| && forall k | 0 <= k < j :: slots[i].lastUsed <= slots[k].lastUsed
      {
        if slots[j].lastUsed < slots[i].lastUsed {
          i := j;
        }
      }
    }

    /** The slot of any session that was used longest ago. */
    method Victim() returns (victim: Option<(string, nat)>)
      requires NoEmpty(artifacts)
      ensures victim.None? <==> artifacts == map[]
      ensures victim.Some? ==> IsOldest(artifacts, victim.value.0, victim.value.1)
    {
      victim := None;
      var left := artifacts.Keys;
      while left != {}
        invariant left <= artifacts.Keys
        invariant victim.None? ==> left == artifacts.Keys
        invariant victim.Some? ==>
          && victim.value.0 in artifacts && victim.value.1 < |artifacts[victim.value.0]|
          && forall t, j | t in artifacts && t !in left && 0 <= j < |artifacts[t]| ::
               artifacts[victim.value.0][victim.value.1].lastUsed <= artifacts[t][j].lastUsed
        decreases left
      {
        var s :| s in left;
        var i := OldestOf(artifacts[s]);
        if victim.None? || artifacts[s][i].lastUsed < artifacts[victim.value.0][victim.value.1].lastUsed {
          victim := Some((s, i));
        }
        left := left - {s};
      }
    }

    /** Evicts by age until an artifact of the given size fits or nothing is left. */
    method MakeRoom(size: nat) returns (ghost floor: nat)
      requires artifactBytes == Total(artifacts) && NoEmpty(artifacts) && Stamped(artifacts, clock)
      modifies this`artifacts, this`artifactBytes
      ensures artifacts == NewerThan(old(artifacts), floor) && artifactBytes == Total(artifacts)
      ensures artifactBytes + size <= MAX_TOTAL_ARTIFACT_BYTES || artifacts == map[]
      ensures forall f | 0 <= f < floor :: Total(NewerThan(old(artifacts), f)) + size > MAX_TOTAL_ARTIFACT_BYTES
    {
      hide Total, NewerThan, Without, Stamped, IsOldest, NoEmpty;
      floor := 0;
      NothingIsOlder(artifacts, clock);
      while artifactBytes + size > MAX_TOTAL_ARTIFACT_BYTES
        invariant artifacts == NewerThan(old(artifacts), floor) && artifactBytes == Total(artifacts)
        invariant NoEmpty(artifacts) && Stamped(artifacts, clock)
        invariant forall f | 0 <= f < floor :: Total(NewerThan(old(artifacts), f)) + size > MAX_TOTAL_ARTIFACT_BYTES
        invariant floor <= clock
        decreases clock - floor
      {
        var victim := Victim();
        if victim.None? {
          break;
        }
        var (s, i) := victim.value;
        EvictionStep(old(artifacts), clock, floor, s, i);
        floor := artifacts[s][i].lastUsed;
        artifactBytes := artifactBytes - |artifacts[s][i].bytes|;
        artifacts := Without(artifacts, s, i);
      }
    }

    /**
      A handle already held is only marked as used. A new artifact pushes out its session's oldest
      if the session is full, then everybody's oldest until it fits, and is then itself the newest.
     */
    method InsertArtifact(session: string, handle: string, bytes: Blob)
      requires Valid()
      modifies this
      ensures Valid() && clock == old(clock) + 1
      ensures Holds(SlotsOf(artifacts, session), handle)
      ensures Holds(SlotsOf(old(artifacts), session), handle) ==>
        IsTouched(old(artifacts), session, handle, clock, artifacts)
      ensures !Holds(SlotsOf(old(artifacts), session), handle) ==>
        IsInserted(old(artifacts), session, Slot(handle, bytes, clock), artifacts)
    {
      hide Total, NewerThan, Stamped, CapHeld;
      ghost var was := artifacts;
      TickKeepsSound(artifacts, artifactBytes, clock);
      var now := Tick();
      var at := Find(SlotsOf(artifacts, session), handle);
      if at.Some? {
        var i := at.value;
        TouchKeepsSound(artifacts, artifactBytes, clock, session, i);
        artifacts := artifacts[session := artifacts[session][i := artifacts[session][i].(lastUsed := now)]];
        assert artifacts[session][i].handle == handle;
        return;
      }
      if |SlotsOf(artifacts, session)| >= MAX_ARTIFACTS_PER_SESSION {
        var i := OldestOf(artifacts[session]);
        RemovalKeepsSound(artifacts, artifactBytes, clock, session, i);
        TrimmedHolds(artifacts, session, i, handle);
        artifactBytes := artifactBytes - |artifacts[session][i].bytes|;
        artifacts := Without(artifacts, session, i);
      }
      ghost var trimmed := artifacts;
      assert IsTrimmed(was, session, trimmed);
      TrimmedIsOlder(was, session, trimmed, clock);
      ghost var floor := MakeRoom(|bytes|);
      RoomKeepsSound(trimmed, clock, floor, session, handle);
      PushKeepsSound(artifacts, artifactBytes, clock, session, Slot(handle, bytes, now));
      artifactBytes := artifactBytes + |bytes|;
      artifacts := Pushed(artifacts, session, Slot(handle, bytes, now));
      assert IsRoomFor(trimmed, floor, |bytes|);
      assert artifacts[session][|artifacts[session]| - 1].handle == handle;
    }

    /** Reading counts as use. */
    method ReadArtifact(session: string, handle: string) returns (bytes: Option<Blob>)
      requires Valid()
      modifies this`artifacts, this`clock
      ensures Valid() && clock == old(clock) + 1
      ensures bytes.Some? <==> Holds(SlotsOf(old(artifacts), session), handle)
      ensures bytes.None? ==> artifacts == old(artifacts)
      ensures bytes.Some? ==> exists i | 0 <= i < |old(artifacts)[session]| ::
        var slot := old(artifacts)[session][i];
        slot.handle == handle && bytes == Some(slot.bytes)
        && artifacts == old(artifacts)[session := old(artifacts)[session][i := slot.(lastUsed := clock)]]
    {
      TickKeepsSound(artifacts, artifactBytes, clock);
      var now := Tick();
      var at := Find(SlotsOf(artifacts, session), handle);
      if at.None? {
        return None;
      }
      var i := at.value;
      TouchKeepsSound(artifacts, artifactBytes, clock, session, i);
      var slot := artifacts[session][i];
      artifacts := artifacts[session := artifacts[session][i := slot.(lastUsed := now)]];
      return Some(slot.bytes);
    }
  }

  lemma TickKeepsSound(m: Shelves, bytes: nat, clock: nat)
    requires Sound(m, bytes, clock)
    ensures Sound(m, bytes, clock + 1) && forall s, i | s in m && 0 <= i < |m[s]| :: m[s][i].lastUsed < clock + 1
  {
  }

  /** Where a slot that survives a removal came from. */
  function Origin(removed: nat, k: nat): nat {
    if k < removed then k else k + 1
  }

  lemma SurvivorsKeep(m: Shelves, s: string, i: nat, t: string, k: nat)
    requires s in m && i < |m[s]| && t in Without(m, s, i) && k < |Without(m, s, i)[t]|
    ensures
      var from := if t == s then Origin(i, k) else k;
      t in m && from < |m[t]| && Without(m, s, i)[t][k] == m[t][from]
  {
  }

  lemma RemovalKeepsStamps(m: Shelves, clock: nat, s: string, i: nat)
    requires Stamped(m, clock) && s in m && i < |m[s]|
    ensures Stamped(Without(m, s, i), clock)
  {
    hide Without;
    var n: Shelves := Without(m, s, i);
    forall t, k | t in n && 0 <= k < |n[t]| ensures 0 < n[t][k].lastUsed <= clock {
      SurvivorsKeep(m, s, i, t, k);
    }
    forall t, k, u, l | t in n && u in n && 0 <= k < |n[t]| && 0 <= l < |n[u]| && n[t][k].lastUsed == n[u][l].lastUsed
      ensures t == u && k == l
    {
      SurvivorsKeep(m, s, i, t, k);
      SurvivorsKeep(m, s, i, u, l);
    }
  }

  lemma RemovalKeepsHandles(slots: seq<Slot>, i: nat)
    requires HandlesDiffer(slots) && i < |slots|
    ensures HandlesDiffer(Dropped(slots, i)) && |Dropped(slots, i)| == |slots| - 1
  {
    assert forall k | 0 <= k < |slots| - 1 :: Dropped(slots, i)[k] == slots[Origin(i, k)];
  }

  lemma RemovalKeepsSound(m: Shelves, bytes: nat, clock: nat, s: string, i: nat)
    requires Sound(m, bytes, clock) && s in m && i < |m[s]|
    ensures |m[s][i].bytes| <= bytes && Sound(Without(m, s, i), bytes - |m[s][i].bytes|, clock)
  {
    TotalOfWithout(m, s, i);
    RemovalKeepsStamps(m, clock, s, i);
    RemovalKeepsHandles(m[s], i);
    hide Stamped, Total, HandlesDiffer, Dropped, SlotBytes;
    if bytes > MAX_TOTAL_ARTIFACT_BYTES {
      assert m - {s} == map[];
      EmptyTotal();
    }
  }

  lemma EmptyTotal()
    ensures Total(map[]) == 0
  {
  }

  lemma DropKeepsSound(m: Shelves, bytes: nat, clock: nat, s: string)
    requires Sound(m, bytes, clock) && s in m
    ensures SlotBytes(m[s]) <= bytes && Sound(m - {s}, bytes - SlotBytes(m[s]), clock)
  {
    TotalSplits(m, s);
    if m.Keys == {s} {
      assert m - {s} == map[];
    }
  }

  lemma TouchKeepsStamps(m: Shelves, clock: nat, s: string, i: nat)
    requires Stamped(m, clock) && s in m && i < |m[s]|
    requires forall t, j | t in m && 0 <= j < |m[t]| :: m[t][j].lastUsed < clock
    ensures Stamped(m[s := m[s][i := m[s][i].(lastUsed := clock)]], clock)
  {
    var n: Shelves := m[s := m[s][i := m[s][i].(lastUsed := clock)]];
    forall t, k | t in n && 0 <= k < |n[t]|
      ensures t in m && k < |m[t]| && n[t][k].lastUsed == if t == s && k == i then clock else m[t][k].lastUsed
    {
    }
  }

  lemma TouchKeepsSound(m: Shelves, bytes: nat, clock: nat, s: string, i: nat)
    requires Sound(m, bytes, clock) && s in m && i < |m[s]|
    requires forall t, j | t in m && 0 <= j < |m[t]| :: m[t][j].lastUsed < clock
    ensures Sound(m[s := m[s][i := m[s][i].(lastUsed := clock)]], bytes, clock)
  {
    hide Total, SlotBytes;
    TouchKeepsStamps(m, clock, s, i);
    var touched := m[s][i := m[s][i].(lastUsed := clock)];
    TotalOfUpdate(m, s, touched);
    TotalSplits(m, s);
    BytesOfTouch(m[s], i, clock);
    hide Stamped;
  }
}
