/**
 Identifier allocation of src/transport/tcp.rs: ids run from 1000 to the largest usize and wrap around, and
 `advance_connection_id` walks to the next id that is not in use.
 */
module Ids {
  const WAKE_ID: nat := 2
  const ID_RANGE_START: nat := 1000
  const USIZE_MAX: nat := 0xFFFF_FFFF_FFFF_FFFF
  const ID_COUNT: nat := USIZE_MAX - ID_RANGE_START + 1

  predicate InRange(id: nat) {
    ID_RANGE_START <= id <= USIZE_MAX
  }

  type ConnectionId = id: nat | InRange(id) witness ID_RANGE_START

  /** `checked_add(1).unwrap_or(CONNECTION_ID_RANGE_START)`. */
  function Successor(id: nat): nat {
    if id + 1 <= USIZE_MAX then id + 1 else ID_RANGE_START
  }

  /** How many successor steps lead from `a` to `b`, counting a full turn from an id to itself. */
  function Distance(a: nat, b: nat): nat
    requires InRange(a) && InRange(b)
  {
    if a < b then b - a else b - a + ID_COUNT
  }

  ghost predicate HasFree(used: set<nat>) {
    exists id :: InRange(id) && id !in used
  }

  /** `next` is the first unused id met when walking on from `id`. */
  ghost predicate IsNextFree(used: set<nat>, id: nat, next: nat) {
    && InRange(id) && InRange(next) && next !in used
    && (forall k | InRange(k) && Distance(id, k) < Distance(id, next) :: k in used)
  }

  lemma NextFreeIsUnique(used: set<nat>, id: nat, a: nat, b: nat)
    requires IsNextFree(used, id, a) && IsNextFree(used, id, b)
    ensures a == b
  {
    assert Distance(id, a) == Distance(id, b);
  }

  lemma {:induction false} NextFreeExists(used: set<nat>, id: nat, free: nat) returns (next: nat)
    requires InRange(id) && InRange(free) && free !in used
    ensures IsNextFree(used, id, next)
    decreases Distance(id, free)
  {
    if k :| InRange(k) && k !in used && Distance(id, k) < Distance(id, free) {
      next := NextFreeExists(used, id, k);
    } else {
      next := free;
    }
  }

  ghost function NextFree(used: set<nat>, id: nat): (next: nat)
    requires InRange(id) && HasFree(used)
    ensures IsNextFree(used, id, next)
  {
    var free :| InRange(free) && free !in used;
    assert exists n :: IsNextFree(used, id, n) by {
      var n := NextFreeExists(used, id, free);
    }
    var next :| IsNextFree(used, id, next);
    next
  }

  /** If the very next id is free, it is the one. */
  lemma NextFreeIsSuccessor(used: set<nat>, id: nat)
    requires InRange(id) && Successor(id) !in used
    ensures HasFree(used) && NextFree(used, id) == Successor(id)
  {
    assert InRange(Successor(id));
    assert IsNextFree(used, id, Successor(id));
    NextFreeIsUnique(used, id, Successor(id), NextFree(used, id));
  }

  lemma {:induction false} IntervalSize(lo: nat, hi: nat) returns (s: set<nat>)
    requires lo <= hi
    ensures (forall k :: k in s <==> lo <= k < hi) && |s| == hi - lo
    decreases hi - lo
  {
    if lo == hi {
      s := {};
    } else {
      s := IntervalSize(lo, hi - 1);
      s := s + {hi - 1};
    }
  }

  /** As long as fewer ids are in use than the range holds, there is one to give out. */
  lemma FewerUsedThanRangeLeavesFree(used: set<nat>)
    requires |used| < ID_COUNT
    ensures HasFree(used)
  {
    var range := IntervalSize(ID_RANGE_START, USIZE_MAX + 1);
    if range <= used {
      SubsetIsSmaller(range, used);
    }
    var id :| id in range && id !in used;
    assert InRange(id);
  }

  lemma SubsetIsSmaller(a: set<nat>, b: set<nat>)
    requires a <= b
    ensures |a| <= |b|
  {
    assert b == a + (b - a);
  }

  /** `advance_connection_id`: it stops, across the wrap too, and stops at the first free id. The caller
      must leave a free id in the range; otherwise the source loops forever. */
  method AdvanceConnectionId(connections: set<nat>, listeners: set<nat>, nextId: nat) returns (id: nat)
    requires InRange(nextId) && HasFree(connections + listeners)
    ensures IsNextFree(connections + listeners, nextId, id)
    ensures InRange(id) && id !in connections && id !in listeners
  {
    ghost var free :| InRange(free) && free !in connections + listeners;
    ghost var steps := 1;
    id := Successor(nextId);
    while id in listeners || id in connections
      invariant InRange(id)
      invariant Distance(nextId, id) == steps <= Distance(nextId, free)
      invariant forall k | InRange(k) && Distance(nextId, k) < steps :: k in connections + listeners
      decreases Distance(nextId, free) - steps
    {
      assert id != free;
      assert forall k | InRange(k) && Distance(nextId, k) == steps :: k == id;
      id := Successor(id);
      steps := steps + 1;
    }
  }
}
