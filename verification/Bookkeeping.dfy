/**
 The comment at src/transport/tcp.rs:413-416: can `disconnected_ids` and the assertion behind it be removed? The
 loop without them is compared with the one that has them.
 */
module Bookkeeping {
  import opened Bytes
  import opened TransportTypes
  import opened Ids
  import opened TcpModel
  import opened TcpProofs

  /** The batch loop as the author's comment would have it: without `disconnected_ids` and without the
      assertion, an unknown token is simply skipped. */
  ghost function PlainToken(s: Tcp, ev: PollEvent): Outcome {
    var id := ev.token;
    if id == WAKE_ID then Running(s)
    else if id in s.listeners then AcceptPhase(s, ev.acceptScript)
    else if id !in s.connections then Running(s)
    else if !ev.readable && !ev.writable then Halted(NoReadiness)
    else
      match ReadPhase(s, ev)
      case Stops(why) => Halted(why)
      case Leaves(s1) => Running(s1)
      case Stays(s1) =>
        if id !in s1.connections then Halted(MissingConnection)
        else
          match WritePhase(s1, ev)
          case Stops(why) => Halted(why)
          case Leaves(s2) => Running(s2)
          case Stays(s2) => Running(s2)
  }

  ghost function PlainBatch(s: Tcp, events: seq<PollEvent>): Outcome {
    if events == [] then Running(s)
    else
      match PlainBatch(s, events[..|events| - 1])
      case Halted(why) => Halted(why)
      case Running(s1) => PlainToken(s1, events[|events| - 1])
  }

  function AsOutcome(handled: Handled): Outcome {
    match handled
    case Stopped(why) => Halted(why)
    case Next(s, _) => Running(s)
  }

  /** A token is handled alike, unless it belongs to a connection accepted under the id of one that was
      disconnected earlier in the batch: the bookkeeping skips that one. */
  lemma PlainTokenAgrees(s: Tcp, disconnected: set<nat>, ev: PollEvent, tokens: set<nat>)
    requires Inv(s, {}) && Accounted(s, disconnected, tokens) && ev.token in tokens
    requires ev.token !in disconnected * s.connections.Keys
    ensures PlainToken(s, ev) == AsOutcome(HandleToken(s, disconnected, ev))
  {
    hide AcceptPhase, ReadPhase, WritePhase, LivesOk, OutputOk;
  }

  /** As long as no id is given out again within the batch in which it was disconnected, the loops agree. */
  lemma {:induction false} AgreeWithoutReuse(s: Tcp, events: seq<PollEvent>)
    requires Inv(s, {}) && forall i :: 0 <= i < |events| ==> events[i].token in s.registered
    requires forall k :: 0 <= k < |events| && HandleBatch(s, events[..k]).Next? ==>
               HandleBatch(s, events[..k]).disconnected !! HandleBatch(s, events[..k]).s.connections.Keys
    ensures PlainBatch(s, events) == AsOutcome(HandleBatch(s, events))
  {
    hide HandleToken, PlainToken;
    if events != [] {
      var init := events[..|events| - 1];
      assert forall k :: 0 <= k < |init| ==> init[..k] == events[..k];
      AgreeWithoutReuse(s, init);
      HandleBatchInv(s, init);
      if HandleBatch(s, init).Next? {
        var b := HandleBatch(s, init);
        hide Inv;
        PlainTokenAgrees(b.s, b.disconnected, events[|events| - 1], s.registered.Keys);
      }
    }
  }

  // ---------------------------------------------------------------------------
  // Which ids a batch can give out
  // ---------------------------------------------------------------------------

  /** How far the id search has to go from `from` to look at `k`. */
  function Offset(from: nat, k: nat): nat
    requires InRange(from) && InRange(k)
  {
    if from <= k then k - from else k - from + ID_COUNT
  }

  /** The unused ids that the search gives out before it comes to `id`. */
  ghost function FreeBefore(s: Tcp, id: nat): set<nat>
    requires InRange(id)
  {
    set k | ID_RANGE_START <= k <= USIZE_MAX && Offset(s.nextId, k) < Offset(s.nextId, id) && k !in Live(s)
  }

  /** How many streams the listeners of `s` accept in a batch. */
  function Accepts(listeners: set<nat>, events: seq<PollEvent>): nat {
    if events == [] then 0
    else Accepts(listeners, events[..|events| - 1]) + AcceptedBy(listeners, events[|events| - 1])
  }

  function AcceptedBy(listeners: set<nat>, ev: PollEvent): nat {
    if ev.token in listeners && AcceptSummary(ev.acceptScript).Some? then AcceptSummary(ev.acceptScript).value else 0
  }

  lemma OffsetDistance(from: nat, a: nat, b: nat)
    requires InRange(from) && InRange(a) && InRange(b)
    ensures Distance(a, b)
            == if Offset(from, a) < Offset(from, b) then Offset(from, b) - Offset(from, a)
               else Offset(from, b) - Offset(from, a) + ID_COUNT
    ensures Offset(from, a) == Offset(from, b) ==> a == b
    ensures Offset(from, a) < ID_COUNT
  {
  }

  /** Every connection is one of `s0` or in `born`. */
  ghost predicate NewOnly(s0: Tcp, s: Tcp, born: set<nat>) {
    forall id :: id in s.connections ==> id in s0.connections || id in born
  }

  /** Since `s0`, `born` have been given out, and the search has passed over no other id that was unused then. */
  ghost predicate Walked(s0: Tcp, s: Tcp, born: set<nat>) {
    && s.listeners == s0.listeners && NewOnly(s0, s, born)
    && born !! Live(s0)
    && (forall k :: k in born ==> InRange(k) && Offset(s0.nextId, k) < Offset(s0.nextId, s.nextId))
    && (forall k :: InRange(k) && k !in Live(s0) && Offset(s0.nextId, k) < Offset(s0.nextId, s.nextId) ==> k in born)
  }

  /** No id of a connection is within reach of `a` more connections. */
  ghost predicate OutOfReach(s0: Tcp, a: nat) {
    forall id :: id in s0.connections ==> InRange(id) && |FreeBefore(s0, id)| >= a
  }

  lemma SubsetSize(a: set<nat>, b: set<nat>)
    requires a <= b
    ensures |a| <= |b|
  {
    assert b == a + (b - a);
  }

  lemma LiveSize(s: Tcp)
    requires IdsOk(s)
    ensures |Live(s)| == |s.connections| + |s.listeners|
  {
    assert |s.connections.Keys| == |s.connections|;
  }

  /** The next id given out is not that of a connection of `s0`. */
  lemma NextIsUnused(s0: Tcp, s: Tcp, born: set<nat>, a: nat)
    requires IdsOk(s) && Walked(s0, s, born) && OutOfReach(s0, a) && |born| < a
    ensures s.nextId !in Live(s0)
  {
    if s.nextId in s0.connections {
      SubsetSize(FreeBefore(s0, s.nextId), born);
    }
  }

  /** The search moves on without passing an unused id, and without coming round. */
  lemma WalkOn(s0: Tcp, s: Tcp, born: set<nat>, next: nat)
    requires Walked(s0, s, born) && s.nextId !in Live(s0) && s.nextId !in born
    requires IsNextFree(Live(s) + {s.nextId}, s.nextId, next)
    requires |Live(s0)| + |born| + 1 < ID_COUNT
    ensures Offset(s0.nextId, s.nextId) < Offset(s0.nextId, next)
    ensures forall k :: InRange(k) && k !in Live(s0) && Offset(s0.nextId, k) < Offset(s0.nextId, next)
                        ==> k in born + {s.nextId}
  {
    var (n, x) := (s0.nextId, s.nextId);
    var used := Live(s0) + born + {x};
    UnionSize(Live(s0), born, x);
    FewerUsedThanRangeLeavesFree(used);
    var f :| InRange(f) && f !in used;
    OffsetDistance(n, x, f);
    OffsetDistance(n, f, x);
    OffsetDistance(n, x, next);
    assert f !in Live(s) + {x};
    forall k | InRange(k) && k !in Live(s0) && Offset(n, k) < Offset(n, next)
      ensures k in born + {x}
    {
      OffsetDistance(n, x, k);
    }
  }

  lemma UnionSize(a: set<nat>, b: set<nat>, x: nat)
    requires a !! b && x !in a && x !in b
    ensures |a + b + {x}| == |a| + |b| + 1
  {
    assert |a + b| == |a| + |b|;
  }

  lemma WalkedGrows(s0: Tcp, s: Tcp, born: set<nat>, s': Tcp)
    requires Walked(s0, s, born) && s.nextId !in Live(s0)
    requires s'.listeners == s.listeners && s'.connections.Keys == s.connections.Keys + {s.nextId}
    requires Offset(s0.nextId, s.nextId) < Offset(s0.nextId, s'.nextId)
    requires forall k :: InRange(k) && k !in Live(s0) && Offset(s0.nextId, k) < Offset(s0.nextId, s'.nextId)
                         ==> k in born + {s.nextId}
    ensures Walked(s0, s', born + {s.nextId})
  {
    hide Offset;
  }

  lemma AddedIds(s: Tcp, conn: Connection)
    requires Room(s, 1)
    ensures var s' := AddConnection(s, false, conn);
            && s'.listeners == s.listeners && s'.connections.Keys == s.connections.Keys + {s.nextId}
            && IsNextFree(Live(s) + {s.nextId}, s.nextId, s'.nextId)
  {
    hide Lives, IsNextFree;
    assert s.connections[s.nextId := conn].Keys == s.connections.Keys + {s.nextId};
  }

  lemma AddWalked(s0: Tcp, s: Tcp, born: set<nat>, a: nat, conn: Connection)
    requires IdsOk(s0) && IdsOk(s) && Walked(s0, s, born) && OutOfReach(s0, a) && |born| < a && Room(s0, a) && Room(s, 1)
    ensures Walked(s0, AddConnection(s, false, conn), born + {s.nextId}) && |born + {s.nextId}| == |born| + 1
  {
    hide AddConnection, Live, OutOfReach, IsNextFree, IdsOk;
    AddedIds(s, conn);
    NextIsUnused(s0, s, born, a);
    LiveSize(s0);
    assert s.nextId !in born;
    hide Walked, Offset;
    WalkOn(s0, s, born, AddConnection(s, false, conn).nextId);
    WalkedGrows(s0, s, born, AddConnection(s, false, conn));
  }

  lemma {:induction false} AcceptManyWalked(s0: Tcp, s: Tcp, born: set<nat>, a: nat, n: nat) returns (born': set<nat>)
    requires IdsOk(s0) && Inv(s, {}) && Walked(s0, s, born) && OutOfReach(s0, a) && Room(s0, a)
    requires |born| + n <= a && Room(s, n)
    ensures Walked(s0, AcceptMany(s, n).0, born') && |born'| == |born| + n
    ensures NewOnly(s, AcceptMany(s, n).0, born')
    decreases n
  {
    hide AcceptMany, Walked, OutOfReach, NewOnly, AddConnection, Inv, IdsOk;
    if n == 0 {
      NoneAccepted(s, born);
      born' := born;
    } else {
      born' := AcceptManyWalked(s0, s, born, a, n - 1);
      AcceptedIdsOk(s, n - 1);
      AcceptedLast(s, n);
      born' := AcceptWalked(s0, s, AcceptMany(s, n - 1).0, born', a);
    }
  }

  lemma NoneAccepted(s: Tcp, born: set<nat>)
    requires Room(s, 0)
    ensures AcceptMany(s, 0).0 == s && NewOnly(s, s, born)
  {
  }

  lemma AcceptedIdsOk(s: Tcp, n: nat)
    requires Inv(s, {}) && Room(s, n)
    ensures IdsOk(AcceptMany(s, n).0)
  {
    AcceptManyInv(s, n);
    hide LivesOk, OutputOk, AcceptMany;
  }

  lemma AcceptWalked(s0: Tcp, s: Tcp, s1: Tcp, born: set<nat>, a: nat) returns (born': set<nat>)
    requires IdsOk(s0) && IdsOk(s1) && Walked(s0, s1, born) && OutOfReach(s0, a) && |born| < a && Room(s0, a)
    requires Room(s1, 1) && NewOnly(s, s1, born)
    ensures var s2 := AddConnection(s1, false, Connection(true, READABLE, []));
            Walked(s0, s2, born') && |born'| == |born| + 1 && NewOnly(s, s2, born')
  {
    hide Walked, OutOfReach, AddConnection, IdsOk, Live, IsNextFree, Room;
    AddWalked(s0, s1, born, a, Connection(true, READABLE, []));
    AddedIds(s1, Connection(true, READABLE, []));
    born' := born + {s1.nextId};
  }

  lemma AcceptedLast(s: Tcp, n: nat)
    requires n > 0 && Room(s, n)
    ensures var s1 := AcceptMany(s, n - 1).0;
            Room(s1, 1) && AcceptMany(s, n).0 == AddConnection(s1, false, Connection(true, READABLE, []))
  {
    hide AddConnection;
  }

  lemma InvIds(s: Tcp, pending: set<nat>)
    requires Inv(s, pending)
    ensures IdsOk(s)
  {
  }

  /** A step that only loses connections. */
  lemma LoseWalked(s0: Tcp, s: Tcp, born: set<nat>, s': Tcp)
    requires Walked(s0, s, born) && s'.listeners == s.listeners && s'.nextId == s.nextId
    requires s'.connections.Keys <= s.connections.Keys
    ensures Walked(s0, s', born)
  {
  }

  lemma {:induction false} AnnouncingKeeps(s: Tcp, ids: seq<nat>)
    ensures var s' := EmitConnected(s, ids);
            s'.connections == s.connections && s'.listeners == s.listeners && s'.nextId == s.nextId
            && s'.spurious == s.spurious
  {
    if ids != [] {
      AnnouncingKeeps(s, ids[..|ids| - 1]);
    }
  }

  lemma AcceptPhaseWalked(s0: Tcp, s: Tcp, born: set<nat>, a: nat, script: seq<AcceptResult>) returns (born': set<nat>)
    requires IdsOk(s0) && Inv(s, {}) && Walked(s0, s, born) && OutOfReach(s0, a) && Room(s0, a)
    requires AcceptPhase(s, script).Running? && |born| + AcceptSummary(script).value <= a
    ensures Walked(s0, AcceptPhase(s, script).s, born') && |born'| == |born| + AcceptSummary(script).value
    ensures NewOnly(s, AcceptPhase(s, script).s, born')
  {
    hide Walked, OutOfReach, AcceptMany, AcceptSummary, EmitConnected, Inv, IdsOk;
    var n := AcceptSummary(script).value;
    born' := AcceptManyWalked(s0, s, born, a, n);
    var (s1, ids) := AcceptMany(s, n);
    var s2 := Track(s1, n == 0).s;
    AnnouncingKeeps(s2, ids);
    LoseWalked(s0, s1, born', AcceptPhase(s, script).s);
  }

  lemma PhasesKeepIds(s: Tcp, ev: PollEvent)
    requires ev.token in s.connections
    ensures var r := ReadPhase(s, ev);
            !r.Stops? ==> r.s.nextId == s.nextId && r.s.listeners == s.listeners
                          && r.s.connections.Keys == if r.Leaves? then s.connections.Keys - {ev.token} else s.connections.Keys
    ensures var w := WritePhase(s, ev);
            !w.Stops? ==> w.s.nextId == s.nextId && w.s.listeners == s.listeners
                          && w.s.connections.Keys == if w.Leaves? then s.connections.Keys - {ev.token} else s.connections.Keys
  {
    hide ReadSummary, WriteSummary;
  }

  lemma ConnectionToken(s: Tcp, disconnected: set<nat>, ev: PollEvent)
    requires ev.token in s.connections && ev.token !in s.listeners && ev.token != WAKE_ID && ev.token !in disconnected
    requires HandleToken(s, disconnected, ev).Next?
    ensures var h := HandleToken(s, disconnected, ev);
            && h.s.nextId == s.nextId && h.s.listeners == s.listeners
            && (|| (h.disconnected == disconnected && h.s.connections.Keys == s.connections.Keys)
                || (h.disconnected == disconnected + {ev.token}
                    && h.s.connections.Keys == s.connections.Keys - {ev.token}))
  {
    hide ReadPhase, WritePhase;
    PhasesKeepIds(s, ev);
    if ReadPhase(s, ev).Stays? {
      PhasesKeepIds(ReadPhase(s, ev).s, ev);
    }
  }

  lemma SilentToken(s: Tcp, disconnected: set<nat>, ev: PollEvent)
    requires ev.token == WAKE_ID || (ev.token !in s.listeners && ev.token in disconnected)
    ensures HandleToken(s, disconnected, ev) == Next(s, disconnected)
  {
  }

  /** What a polled token does to a batch in which nothing is given out twice. */
  lemma TokenWalked(s0: Tcp, s: Tcp, disconnected: set<nat>, born: set<nat>, a: nat, ev: PollEvent)
    returns (born': set<nat>)
    requires Inv(s0, {}) && Inv(s, {}) && Walked(s0, s, born) && OutOfReach(s0, a) && Room(s0, a)
    requires HandleToken(s, disconnected, ev).Next? && |born| + AcceptedBy(s0.listeners, ev) <= a
    requires disconnected <= s0.connections.Keys && disconnected !! s.connections.Keys
    requires Accounted(s, disconnected, s0.registered.Keys) && ev.token in s0.registered
    ensures var h := HandleToken(s, disconnected, ev);
            && Walked(s0, h.s, born') && |born'| == |born| + AcceptedBy(s0.listeners, ev)
            && h.disconnected <= s0.connections.Keys && h.disconnected !! h.s.connections.Keys
  {
    born' := born;
    InvIds(s, {});
    InvIds(s0, {});
    Tokens(s0);
    hide HandleToken, AcceptPhase, AcceptSummary, OutOfReach, Inv, Room;
    assert s.listeners == s0.listeners && NewOnly(s0, s, born) && born !! Live(s0);
    if ev.token in s.listeners {
      ListenerToken(s, disconnected, ev);
      hide IdsOk;
      born' := AcceptPhaseWalked(s0, s, born, a, ev.acceptScript);
      assert born' !! Live(s0);
    } else if ev.token == WAKE_ID || ev.token in disconnected {
      SilentToken(s, disconnected, ev);
    } else {
      ConnectionToken(s, disconnected, ev);
      hide Walked, IdsOk;
      LoseWalked(s0, s, born, HandleToken(s, disconnected, ev).s);
    }
  }

  lemma Tokens(s: Tcp)
    requires Inv(s, {})
    ensures s.registered.Keys == {WAKE_ID} + Live(s) && WAKE_ID !in s.listeners
  {
    hide LivesOk, OutputOk;
  }

  lemma ListenerToken(s: Tcp, disconnected: set<nat>, ev: PollEvent)
    requires ev.token != WAKE_ID && ev.token in s.listeners && HandleToken(s, disconnected, ev).Next?
    ensures AcceptPhase(s, ev.acceptScript).Running? && AcceptSummary(ev.acceptScript).Some?
    ensures HandleToken(s, disconnected, ev) == Next(AcceptPhase(s, ev.acceptScript).s, disconnected)
  {
    hide AcceptMany, EmitConnected, AcceptSummary;
  }

  lemma StartWalked(s: Tcp)
    ensures Walked(s, s, {})
  {
  }

  /** No id is given out again in a batch that accepts no more streams than it takes to reach one. */
  lemma {:induction false} BatchWalked(s: Tcp, events: seq<PollEvent>, a: nat) returns (born: set<nat>)
    requires Inv(s, {}) && OutOfReach(s, a) && Room(s, a) && HandleBatch(s, events).Next?
    requires forall i :: 0 <= i < |events| ==> events[i].token in s.registered
    requires Accepts(s.listeners, events) <= a
    ensures var b := HandleBatch(s, events);
            && Walked(s, b.s, born) && |born| == Accepts(s.listeners, events)
            && b.disconnected <= s.connections.Keys && b.disconnected !! b.s.connections.Keys
    decreases |events|
  {
    hide Walked, OutOfReach, HandleToken, Inv, Room, AcceptedBy;
    if events == [] {
      born := {};
      StartWalked(s);
    } else {
      var (init, last) := (events[..|events| - 1], events[|events| - 1]);
      AcceptsInit(s.listeners, events);
      born := BatchWalked(s, init, a);
      HandleBatchInv(s, init);
      var b := HandleBatch(s, init);
      assert HandleBatch(s, events) == HandleToken(b.s, b.disconnected, last);
      assert Accounted(b.s, b.disconnected, s.registered.Keys) && last.token in s.registered;
      hide HandleBatch, Accepts, Accounted;
      born := TokenWalked(s, b.s, b.disconnected, born, a, last);
    }
  }

  lemma AcceptsInit(listeners: set<nat>, events: seq<PollEvent>)
    requires events != []
    ensures Accepts(listeners, events)
            == Accepts(listeners, events[..|events| - 1]) + AcceptedBy(listeners, events[|events| - 1])
  {
    hide AcceptedBy;
  }

  lemma {:induction false} AcceptsGrow(listeners: set<nat>, events: seq<PollEvent>, k: nat)
    requires k <= |events|
    ensures Accepts(listeners, events[..k]) <= Accepts(listeners, events)
    decreases |events|
  {
    hide AcceptedBy;
    if k == |events| {
      assert events[..k] == events;
    } else {
      assert events[..|events| - 1][..k] == events[..k];
      AcceptsGrow(listeners, events[..|events| - 1], k);
    }
  }

  /** A batch of registered tokens that accepts at most `a` streams. */
  ghost predicate Batch(s: Tcp, events: seq<PollEvent>, a: nat) {
    && (forall i :: 0 <= i < |events| ==> events[i].token in s.registered)
    && Accepts(s.listeners, events) <= a
  }

  lemma AgreeOutOfReach(s: Tcp, events: seq<PollEvent>, a: nat)
    requires Inv(s, {}) && OutOfReach(s, a) && Room(s, a) && Batch(s, events, a)
    ensures PlainBatch(s, events) == AsOutcome(HandleBatch(s, events))
  {
    hide OutOfReach, Inv, Room, PlainBatch, HandleBatch;
    forall k | 0 <= k < |events| && HandleBatch(s, events[..k]).Next?
      ensures HandleBatch(s, events[..k]).disconnected !! HandleBatch(s, events[..k]).s.connections.Keys
    {
      AcceptsGrow(s.listeners, events, k);
      var born := BatchWalked(s, events[..k], a);
    }
    AgreeWithoutReuse(s, events);
  }

  lemma {:induction false} NothingAccepted(s: Tcp, events: seq<PollEvent>)
    requires s.listeners == {}
    ensures Accepts(s.listeners, events) == 0
  {
    if events != [] {
      NothingAccepted(s, events[..|events| - 1]);
    }
  }

  // ---------------------------------------------------------------------------
  // A batch that tells the loops apart
  // ---------------------------------------------------------------------------

  /** The connection goes away. */
  function Leaving(s: Tcp, id: nat): PollEvent
    requires id in s.connections
  {
    if s.connections[id].connected then PollEvent(id, true, false, [], [ReadError], false, [])
    else PollEvent(id, false, true, [], [], true, [])
  }

  function Accepting(listener: nat, n: nat): PollEvent {
    PollEvent(listener, true, false, seq(n, i => NewStream), [], false, [])
  }

  /** Another readiness event for the same token. */
  function Again(id: nat): PollEvent {
    PollEvent(id, true, false, [], [], false, [])
  }

  lemma {:induction false} AllAccepted(n: nat)
    ensures AcceptSummary(seq(n, i => NewStream)) == Some(n)
  {
    if n > 0 {
      assert seq(n, i => NewStream)[1..] == seq(n - 1, i => NewStream);
      AllAccepted(n - 1);
    }
  }

  lemma LeavingPhase(s: Tcp, id: nat)
    requires id in s.connections
    ensures var ev := Leaving(s, id);
            if s.connections[id].connected then ReadPhase(s, ev).Leaves?
            else ReadPhase(s, ev) == Stays(s) && WritePhase(s, ev).Leaves?
  {
    assert ReadSummary([ReadError], s.maxRead) == ReadIo([], true);
  }

  lemma LeavingLeaves(s: Tcp, id: nat)
    requires Inv(s, {}) && id in s.connections
    ensures var h := HandleToken(s, {}, Leaving(s, id));
            && h.Next? && Inv(h.s, {}) && h.disconnected == {id}
            && h.s.nextId == s.nextId && h.s.listeners == s.listeners
            && h.s.connections.Keys == s.connections.Keys - {id}
            && Accounted(h.s, {id}, s.registered.Keys)
  {
    var ev := Leaving(s, id);
    assert ev.token == id && (ev.readable || ev.writable);
    InvIds(s, {});
    assert id !in s.listeners && id != WAKE_ID;
    AllAccountedFor(s);
    Tokens(s);
    HandleTokenInv(s, {}, ev, s.registered.Keys);
    LeavingPhase(s, id);
    PhasesKeepIds(s, ev);
    hide Inv, ReadPhase, WritePhase, Leaving, IdsOk, Accounted, Live;
    assert {} + {id} == {id};
  }

  lemma AllAccountedFor(s: Tcp)
    requires Inv(s, {})
    ensures Accounted(s, {}, s.registered.Keys)
  {
    hide LivesOk, OutputOk, IdsOk;
  }

  /** Since `s1`, in which `id` of `s0` is gone, `born` have been given out, all of them on the way to `id`. */
  ghost predicate Approaches(s0: Tcp, id: nat, s1: Tcp, s: Tcp, born: set<nat>)
    requires InRange(id)
  {
    && s.listeners == s1.listeners && (forall k :: k in s.connections <==> k in s1.connections || k in born)
    && born <= FreeBefore(s0, id)
    && (forall k :: k in born ==> InRange(k) && Offset(s0.nextId, k) < Offset(s0.nextId, s.nextId))
    && Offset(s0.nextId, s.nextId) <= Offset(s0.nextId, id)
  }

  lemma OneCloser(s0: Tcp, id: nat, s: Tcp, next: nat)
    requires InRange(id) && IsNextFree(Live(s) + {s.nextId}, s.nextId, next)
    requires id !in Live(s) && s.nextId != id && Offset(s0.nextId, s.nextId) <= Offset(s0.nextId, id)
    ensures Offset(s0.nextId, s.nextId) < Offset(s0.nextId, next) <= Offset(s0.nextId, id)
  {
    var (n, x) := (s0.nextId, s.nextId);
    OffsetDistance(n, x, id);
    OffsetDistance(n, x, next);
    assert id !in Live(s) + {x};
  }

  lemma ApproachGrows(s0: Tcp, id: nat, s1: Tcp, s: Tcp, born: set<nat>, s': Tcp)
    requires InRange(id) && Approaches(s0, id, s1, s, born) && s.nextId in FreeBefore(s0, id)
    requires s'.listeners == s.listeners && s'.connections.Keys == s.connections.Keys + {s.nextId}
    requires Offset(s0.nextId, s.nextId) < Offset(s0.nextId, s'.nextId) <= Offset(s0.nextId, id)
    ensures Approaches(s0, id, s1, s', born + {s.nextId})
  {
    hide Offset, FreeBefore;
  }

  lemma OnTheWay(s0: Tcp, id: nat, s1: Tcp, s: Tcp, born: set<nat>)
    requires IdsOk(s0) && id in s0.connections && IdsOk(s) && Approaches(s0, id, s1, s, born)
    requires s1.connections.Keys == s0.connections.Keys - {id} && s1.listeners == s0.listeners
    requires s.nextId != id
    ensures id !in Live(s) && s.nextId !in born && s.nextId in FreeBefore(s0, id)
  {
    OffsetDistance(s0.nextId, s.nextId, id);
    assert id !in FreeBefore(s0, id);
    assert s.nextId !in s1.connections && s.nextId !in s1.listeners;
  }

  /** If it is not `id` that is given out, it is another unused id on the way to it. */
  lemma ApproachesOne(s0: Tcp, id: nat, s1: Tcp, s: Tcp, born: set<nat>)
    requires IdsOk(s0) && id in s0.connections && IdsOk(s) && Room(s, 1) && Approaches(s0, id, s1, s, born)
    requires s1.connections.Keys == s0.connections.Keys - {id} && s1.listeners == s0.listeners
    requires s.nextId != id
    ensures Approaches(s0, id, s1, AddConnection(s, false, Connection(true, READABLE, [])), born + {s.nextId})
    ensures s.nextId !in born
  {
    var s' := AddConnection(s, false, Connection(true, READABLE, []));
    AddedIds(s, Connection(true, READABLE, []));
    hide AddConnection, IsNextFree, FreeBefore, Live, Offset;
    OnTheWay(s0, id, s1, s, born);
    OneCloser(s0, id, s, s'.nextId);
    hide Approaches, IdsOk;
    ApproachGrows(s0, id, s1, s, born, s');
  }

  /** Accepting goes on until `id` is given out again, at the latest after the unused ids before it. */
  lemma {:induction false} AcceptManyApproaches(s0: Tcp, id: nat, s1: Tcp, n: nat) returns (born: set<nat>)
    requires IdsOk(s0) && id in s0.connections && Inv(s1, {}) && Room(s1, n) && s1.nextId == s0.nextId
    requires s1.connections.Keys == s0.connections.Keys - {id} && s1.listeners == s0.listeners
    ensures var s := AcceptMany(s1, n).0;
            id in s.connections || (Approaches(s0, id, s1, s, born) && |born| == n)
    decreases n
  {
    hide AcceptMany, Approaches, AddConnection, Inv, IdsOk;
    if n == 0 {
      born := {};
      AcceptedNone(s0, id, s1);
    } else {
      born := AcceptManyApproaches(s0, id, s1, n - 1);
      AcceptedIdsOk(s1, n - 1);
      AcceptedLast(s1, n);
      var s := AcceptMany(s1, n - 1).0;
      if id !in s.connections && s.nextId != id {
        ApproachesOne(s0, id, s1, s, born);
        born := born + {s.nextId};
      } else {
        AddKeeps(s, id);
      }
    }
  }

  lemma AcceptedNone(s0: Tcp, id: nat, s1: Tcp)
    requires IdsOk(s0) && id in s0.connections && s1.nextId == s0.nextId
    ensures Room(s1, 0) ==> AcceptMany(s1, 0).0 == s1
    ensures Approaches(s0, id, s1, s1, {})
  {
    hide FreeBefore;
  }

  lemma AddKeeps(s: Tcp, id: nat)
    requires Room(s, 1) && (id in s.connections || s.nextId == id)
    ensures id in AddConnection(s, false, Connection(true, READABLE, [])).connections
  {
    hide NextAfterBirth, Lives;
  }

  lemma AcceptsItAgain(s0: Tcp, id: nat, s1: Tcp)
    requires IdsOk(s0) && id in s0.connections && Inv(s1, {}) && s1.nextId == s0.nextId
    requires s1.connections.Keys == s0.connections.Keys - {id} && s1.listeners == s0.listeners
    requires Room(s1, |FreeBefore(s0, id)| + 1)
    ensures id in AcceptMany(s1, |FreeBefore(s0, id)| + 1).0.connections
  {
    assert InRange(id);
    hide AcceptMany, Inv, IdsOk, FreeBefore, Room;
    var born := AcceptManyApproaches(s0, id, s1, |FreeBefore(s0, id)| + 1);
    if id !in AcceptMany(s1, |FreeBefore(s0, id)| + 1).0.connections {
      SubsetSize(born, FreeBefore(s0, id));
    }
  }

  /** The accept of the batch below. */
  lemma AcceptingAccepts(s0: Tcp, id: nat, s1: Tcp, listener: nat)
    requires IdsOk(s0) && id in s0.connections && Inv(s1, {}) && s1.nextId == s0.nextId
    requires s1.connections.Keys == s0.connections.Keys - {id} && s1.listeners == s0.listeners
    requires Room(s1, |FreeBefore(s0, id)| + 1) && listener in s1.listeners && listener != WAKE_ID
    ensures var h := HandleToken(s1, {id}, Accepting(listener, |FreeBefore(s0, id)| + 1));
            && h.Next? && h.disconnected == {id} && id in h.s.connections && h.s.spurious == 0
            && h.s.listeners == s1.listeners
  {
    var n := |FreeBefore(s0, id)| + 1;
    AllAccepted(n);
    AcceptsItAgain(s0, id, s1);
    hide FreeBefore, AcceptMany, EmitConnected, Inv, IdsOk, Room;
    var (s2, ids) := AcceptMany(s1, n);
    AnnouncingKeeps(Track(s2, false).s, ids);
    assert Track(s2, false).s.connections == s2.connections;
  }

  /** Without the bookkeeping the new connection is read; with it, it is passed over. */
  lemma AgainDiffers(s: Tcp, id: nat)
    requires id in s.connections && id !in s.listeners && id != WAKE_ID && s.spurious == 0
    ensures HandleToken(s, {id}, Again(id)) == Next(s, {id})
    ensures PlainToken(s, Again(id)) != Running(s)
  {
    assert ReadSummary([], s.maxRead) == ReadIo([], false);
  }

  ghost predicate Differ(s: Tcp, events: seq<PollEvent>) {
    PlainBatch(s, events) != AsOutcome(HandleBatch(s, events))
  }

  lemma BatchSnoc(s: Tcp, events: seq<PollEvent>, ev: PollEvent)
    ensures HandleBatch(s, events + [ev])
            == match HandleBatch(s, events)
               case Stopped(why) => Stopped(why)
               case Next(s1, disconnected) => HandleToken(s1, disconnected, ev)
    ensures PlainBatch(s, events + [ev])
            == match PlainBatch(s, events)
               case Halted(why) => Halted(why)
               case Running(s1) => PlainToken(s1, ev)
    ensures Accepts(s.listeners, events + [ev]) == Accepts(s.listeners, events) + AcceptedBy(s.listeners, ev)
  {
    hide HandleToken, PlainToken, AcceptedBy;
    assert (events + [ev])[..|events|] == events;
  }

  lemma EmptyBatch(s: Tcp)
    ensures HandleBatch(s, []) == Next(s, {}) && PlainBatch(s, []) == Running(s) && Accepts(s.listeners, []) == 0
  {
  }

  lemma RoomWithoutOne(s: Tcp, s1: Tcp, id: nat, a: nat, n: nat)
    requires Room(s, a) && n <= a && id in s.connections
    requires s1.connections.Keys == s.connections.Keys - {id} && s1.listeners == s.listeners
    ensures Room(s1, n)
  {
    assert |s1.connections.Keys| == |s.connections.Keys| - 1;
    assert |s1.connections| == |s1.connections.Keys| && |s.connections| == |s.connections.Keys|;
  }

  lemma Basics(s: Tcp, id: nat, listener: nat)
    requires Inv(s, {}) && id in s.connections && listener in s.listeners
    ensures IdsOk(s) && Accounted(s, {}, s.registered.Keys)
    ensures InRange(id) && id !in s.listeners && id != WAKE_ID && listener !in s.connections && listener != WAKE_ID
    ensures id in s.registered && listener in s.registered
  {
    AllAccountedFor(s);
    Tokens(s);
    hide LivesOk, OutputOk;
  }

  lemma EventTokens(s: Tcp, id: nat, listener: nat, n: nat)
    requires id in s.connections && id !in s.listeners && listener in s.listeners
    ensures Leaving(s, id).token == id && Accepting(listener, n).token == listener && Again(id).token == id
    ensures AcceptedBy(s.listeners, Leaving(s, id)) == 0 && AcceptedBy(s.listeners, Again(id)) == 0
    ensures AcceptedBy(s.listeners, Accepting(listener, n)) == n
  {
    AllAccepted(n);
  }

  /** The first two events of the batch below: the loops still agree, and `id` is a connection again. */
  lemma LostAndGivenOutAgain(s: Tcp, id: nat, listener: nat, a: nat)
    requires Inv(s, {}) && Room(s, a) && id in s.connections && listener in s.listeners
    requires InRange(id) && |FreeBefore(s, id)| < a
    ensures var n := |FreeBefore(s, id)| + 1;
            var events := [Leaving(s, id), Accepting(listener, n)];
            var b := HandleBatch(s, events);
            && b.Next? && b.disconnected == {id} && id in b.s.connections && b.s.spurious == 0
            && b.s.listeners == s.listeners
            && PlainBatch(s, events) == Running(b.s) && Accepts(s.listeners, events) == n
  {
    hide Inv, HandleToken, PlainToken, HandleBatch, PlainBatch, Accepts, AcceptedBy, Leaving, Accepting, FreeBefore;
    hide Room, Accounted, IdsOk, Live, Again;
    var n := |FreeBefore(s, id)| + 1;
    var (leave, accept) := (Leaving(s, id), Accepting(listener, n));
    Basics(s, id, listener);
    EventTokens(s, id, listener, n);
    LeavingLeaves(s, id);
    var s1 := HandleToken(s, {}, leave).s;
    PlainTokenAgrees(s, {}, leave, s.registered.Keys);
    RoomWithoutOne(s, s1, id, a, n);
    AcceptingAccepts(s, id, s1, listener);
    PlainTokenAgrees(s1, {id}, accept, s.registered.Keys);
    EmptyBatch(s);
    BatchSnoc(s, [], leave);
    assert [] + [leave] == [leave];
    BatchSnoc(s, [leave], accept);
    assert [leave] + [accept] == [leave, accept];
  }

  lemma SomeBatchDiffers(s: Tcp, id: nat, listener: nat, a: nat) returns (events: seq<PollEvent>)
    requires Inv(s, {}) && Room(s, a) && id in s.connections && listener in s.listeners
    requires InRange(id) && |FreeBefore(s, id)| < a
    ensures Batch(s, events, a) && Differ(s, events)
  {
    hide Inv, HandleToken, PlainToken, HandleBatch, PlainBatch, Accepts, AcceptedBy, Leaving, Accepting, FreeBefore;
    hide Room, IdsOk, Again, Live, Accounted;
    var n := |FreeBefore(s, id)| + 1;
    var (leave, accept) := (Leaving(s, id), Accepting(listener, n));
    events := [leave, accept] + [Again(id)];
    Basics(s, id, listener);
    EventTokens(s, id, listener, n);
    LostAndGivenOutAgain(s, id, listener, a);
    BatchSnoc(s, [leave, accept], Again(id));
    AgainDiffers(HandleBatch(s, [leave, accept]).s, id);
    assert events == [leave, accept, Again(id)];
  }

  // ---------------------------------------------------------------------------
  // The answer to the comment
  // ---------------------------------------------------------------------------

  /** A connection whose id can come up again within `a` accepted streams. */
  ghost predicate WithinReach(s: Tcp, id: nat, a: nat) {
    id in s.connections && InRange(id) && |FreeBefore(s, id)| < a
  }

  /** The bookkeeping makes a difference in some batch that accepts at most `a` streams exactly if there is a
      listener, and a connection whose id the search would reach with `a` more ids. There must be room for `a`
      more: otherwise the search does not end. */
  lemma BookkeepingMattersIff(s: Tcp, a: nat)
    requires Inv(s, {}) && Room(s, a)
    ensures (exists events :: Batch(s, events, a) && Differ(s, events))
            <==> s.listeners != {} && exists id :: WithinReach(s, id, a)
  {
    InvIds(s, {});
    if listener, id :| listener in s.listeners && WithinReach(s, id, a) {
      hide *;
      assert WithinReach(s, id, a);
      WithinReachMeans(s, id, a);
      var events := SomeBatchDiffers(s, id, listener, a);
    } else {
      forall events | Batch(s, events, a)
        ensures !Differ(s, events)
      {
        NoBatchDiffers(s, events, a);
      }
    }
  }

  lemma WithinReachMeans(s: Tcp, id: nat, a: nat)
    requires WithinReach(s, id, a)
    ensures id in s.connections && InRange(id) && |FreeBefore(s, id)| < a
  {
  }

  lemma NoBatchDiffers(s: Tcp, events: seq<PollEvent>, a: nat)
    requires Inv(s, {}) && Room(s, a) && Batch(s, events, a)
    requires s.listeners == {} || forall id :: !WithinReach(s, id, a)
    ensures !Differ(s, events)
  {
    hide Inv, PlainBatch, HandleBatch, FreeBefore, Room;
    ConnectionsInRange(s);
    if s.listeners == {} {
      NothingAccepted(s, events);
      assert Room(s, 0) by { RoomForNone(s, a); }
      AgreeOutOfReach(s, events, 0);
    } else {
      forall id | id in s.connections
        ensures InRange(id) && |FreeBefore(s, id)| >= a
      {
        assert !WithinReach(s, id, a);
      }
      AgreeOutOfReach(s, events, a);
    }
  }

  lemma RoomForNone(s: Tcp, a: nat)
    requires Room(s, a)
    ensures Room(s, 0)
  {
  }

  lemma ConnectionsInRange(s: Tcp)
    requires Inv(s, {})
    ensures forall id :: id in Live(s) ==> InRange(id)
  {
    hide LivesOk, OutputOk, RegistryOk;
  }

  /** With ids given out in ascending order and room at the end of the range, no live id is within reach. */
  lemma AscendingIsOutOfReach(s: Tcp, a: nat)
    requires IdsOk(s)
    requires (forall id :: id in Live(s) ==> id < s.nextId) && s.nextId + a <= USIZE_MAX
    ensures OutOfReach(s, a) && Room(s, a)
  {
    var below := IntervalSize(ID_RANGE_START, s.nextId);
    var next := IntervalSize(s.nextId, s.nextId + a);
    assert Live(s) <= below;
    forall id | id in s.connections
      ensures InRange(id) && |FreeBefore(s, id)| >= a
    {
      assert id in Live(s);
      assert next <= FreeBefore(s, id);
      SubsetSize(next, FreeBefore(s, id));
    }
    hide FreeBefore;
    LiveSize(s);
    SubsetSize(Live(s), below);
  }

  /** So it can go for as long as ids are given out in ascending order: if all live ids are smaller than the next
      one and the range has room for the streams accepted, the loops agree on every batch. */
  lemma BookkeepingCanGo(s: Tcp, events: seq<PollEvent>, a: nat)
    requires Inv(s, {}) && Batch(s, events, a)
    requires (forall id :: id in Live(s) ==> id < s.nextId) && s.nextId + a <= USIZE_MAX
    ensures PlainBatch(s, events) == AsOutcome(HandleBatch(s, events))
  {
    hide Inv, PlainBatch, HandleBatch, FreeBefore, OutOfReach, IdsOk, Room, Live;
    InvIds(s, {});
    AscendingIsOutOfReach(s, a);
    AgreeOutOfReach(s, events, a);
  }

  lemma NextToNext(s: Tcp)
    requires IdsOk(s) && Successor(s.nextId) in s.connections
    ensures WithinReach(s, Successor(s.nextId), 2)
  {
    var id := Successor(s.nextId);
    assert FreeBefore(s, id) <= {s.nextId};
    SubsetSize(FreeBefore(s, id), {s.nextId});
  }

  /** And it cannot once the ids have come round to a live connection: with that one right after the next id, two
      accepted streams are enough to tell the loops apart. */
  lemma WrappedAroundDiffers(s: Tcp, listener: nat)
    requires Inv(s, {}) && Room(s, 2) && listener in s.listeners && Successor(s.nextId) in s.connections
    ensures exists events :: Batch(s, events, 2) && Differ(s, events)
  {
    hide Inv, WithinReach, FreeBefore, IdsOk, Successor, Room, Batch, Differ;
    InvIds(s, {});
    NextToNext(s);
    BookkeepingMattersIff(s, 2);
  }
}
