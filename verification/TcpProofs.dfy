/** What every run of the TCP transport keeps: cleanup, event grammar, byte conservation, wakeups, ids. */
module TcpProofs {
  import opened Bytes
  import opened TransportTypes
  import opened Ids
  import opened TcpModel
  import opened TcpSockets

  // ---------------------------------------------------------------------------
  // The invariant
  // ---------------------------------------------------------------------------

  /** Connected, then any number of non-empty Data events. */
  predicate OpenWord(id: nat, es: seq<TransportEvent>) {
    && es != [] && es[0] == Connected(id)
    && forall i :: 1 <= i < |es| ==> es[i].Data? && es[i].id == id && es[i].data != []
  }

  /** The documented life of a connection: a prefix of Connected, Data*, Disconnected, or, for a connection
      from `connect` only, the single event ConnectionFailed. */
  predicate LifetimeWord(id: nat, outgoing: bool, es: seq<TransportEvent>) {
    || es == []
    || OpenWord(id, es)
    || (outgoing && es == [ConnectionFailed(id)])
    || (|es| >= 2 && OpenWord(id, es[..|es| - 1]) && es[|es| - 1] == Disconnected(id))
  }

  /** The one life outside the documented grammar: the call that completes the connection also writes bytes
      queued earlier, and when that write fails it reports Disconnected without Connected. */
  predicate LostBeforeConnected(id: nat, life: Life) {
    life.outgoing && life.events == [Disconnected(id)] && Flatten(life.queued) != []
  }

  /** A life that is over: it has told a lifetime word or the exception, its Data events carry all the bytes its
      socket handed over, and what the socket took is the first part of what was queued. */
  predicate LifeOk(id: nat, life: Life) {
    && (LifetimeWord(id, life.outgoing, life.events) || LostBeforeConnected(id, life))
    && Received(life.events) == life.received
    && life.written <= Flatten(life.queued)
  }

  /** A live connection. While `pending`, an accepted connection has not been announced yet. */
  predicate LiveOk(id: nat, c: Connection, h: History, pending: bool) {
    && (c.connected ==>
          && c.interest.readable
          && (if pending then !h.outgoing && h.events == [] else OpenWord(id, h.events)))
    && (!c.connected ==>
          && !pending
          && h.outgoing && h.events == [] && h.written == []
          && c.interest.writable && (c.interest.readable <==> h.queued != []))
    && h.written + c.sendBuf == Flatten(h.queued)
    && Received(h.events) == h.received
    && (c.sendBuf != [] ==> c.interest.writable)
  }

  predicate DeadOk(id: nat, h: History) {
    LifeOk(id, ThisLife(h))
  }

  predicate PastLives(id: nat, lives: seq<Life>) {
    forall i :: 0 <= i < |lives| ==> LifeOk(id, lives[i])
  }

  ghost predicate IdOk(s: Tcp, id: nat, pending: bool)
    requires id in s.hist
  {
    && PastLives(id, s.hist[id].before)
    && if id in s.connections then LiveOk(id, s.connections[id], s.hist[id], pending) else DeadOk(id, s.hist[id])
  }

  /** Poll knows the waker, the listeners and the connections, each with the interest stored for it. */
  ghost predicate RegistryOk(s: Tcp) {
    && s.registered.Keys == {WAKE_ID} + s.listeners + s.connections.Keys
    && s.registered[WAKE_ID] == READABLE
    && (forall id :: id in s.listeners ==> s.registered[id] == READABLE)
    && (forall id :: id in s.connections ==> s.registered[id] == s.connections[id].interest)
  }

  /** Ids in use are in the range, never shared, and never the one prepared for the next connection. */
  ghost predicate IdsOk(s: Tcp) {
    && s.nextId !in Live(s)
    && s.connections.Keys !! s.listeners
    && (forall id :: id in s.connections || id in s.listeners ==> InRange(id))
  }

  ghost predicate LivesOk(s: Tcp, pending: set<nat>) {
    && pending <= s.connections.Keys <= s.hist.Keys
    && (forall id :: id in s.hist ==> IdOk(s, id, id in pending))
  }

  /** The events handed out for `id` are those of its earlier lifetimes followed by those of this one. In the
      first lifetime no Inactive and no end of the connection comes between its data. */
  ghost predicate OutputAt(s: Tcp, id: nat) {
    && EventsOf(s.out, id) == Past(s, id)
    && (id in s.hist && s.hist[id].before == [] ==>
          Orderly(s.out, id) && (id in s.connections ==> Undisturbed(s.out, id)))
  }

  ghost predicate OutputOk(s: Tcp) {
    forall id :: OutputAt(s, id)
  }

  /** Nothing has disturbed the data of `id` in its first lifetime. */
  predicate Calm(s: Tcp, id: nat)
    requires id in s.hist
  {
    s.hist[id].before == [] ==> Undisturbed(s.out, id)
  }

  ghost predicate Inv(s: Tcp, pending: set<nat>) {
    RegistryOk(s) && IdsOk(s) && LivesOk(s, pending) && OutputOk(s)
  }

  // ---------------------------------------------------------------------------
  // Every small step keeps it
  // ---------------------------------------------------------------------------

  /** The two states hold the same connection and the same history for `id`. */
  ghost predicate SameId(s: Tcp, s': Tcp, id: nat) {
    && (id in s.connections <==> id in s'.connections)
    && (id in s.connections ==> s'.connections[id] == s.connections[id])
    && (id in s.hist <==> id in s'.hist)
    && (id in s.hist ==> s'.hist[id] == s.hist[id])
  }

  /** A step that touches one id only has to be checked there. */
  lemma LivesFrame(s: Tcp, pending: set<nat>, s': Tcp, pending': set<nat>, id: nat)
    requires LivesOk(s, pending)
    requires forall other :: other != id ==> SameId(s, s', other) && (other in pending <==> other in pending')
    requires id in s'.connections ==> id in s'.hist
    requires id in pending' ==> id in s'.connections
    requires id in s'.hist ==> IdOk(s', id, id in pending')
    ensures LivesOk(s', pending')
  {
    hide LiveOk, DeadOk;
    forall other | other in s'.hist
      ensures IdOk(s', other, other in pending')
    {
      assert other != id ==> SameId(s, s', other);
    }
    forall other | other in s'.connections
      ensures other in s'.hist
    {
      assert other != id ==> SameId(s, s', other);
    }
    forall other | other in pending'
      ensures other in s'.connections
    {
      assert other != id ==> SameId(s, s', other);
    }
  }

  lemma InitInv(maxRead: nat)
    ensures Inv(Init(maxRead), {})
  {
  }

  /** Nothing was emitted, and a connection is old or has a new history. */
  ghost predicate SameOutput(s: Tcp, s': Tcp, id: nat) {
    && Past(s', id) == Past(s, id)
    && (id in s'.hist && s'.hist[id].before == [] && Past(s, id) != [] ==>
          id in s.hist && s.hist[id].before == [] && (id in s'.connections ==> id in s.connections))
  }

  lemma OutputFrame(s: Tcp, s': Tcp)
    requires OutputOk(s) && s'.out == s.out
    requires forall id :: SameOutput(s, s', id)
    ensures OutputOk(s')
  {
    hide EventsOf, Past, Undisturbed, Orderly;
    forall id
      ensures OutputAt(s', id)
    {
      assert OutputAt(s, id) && SameOutput(s, s', id);
      if Past(s, id) == [] {
        NoEventsNoDisorder(s.out, id);
      }
    }
  }

  /** A life that ends joins the past ones. */
  lemma RebornIsPast(s: Tcp, pending: set<nat>)
    requires Inv(s, pending)
    ensures PastLives(s.nextId, Lives(s, s.nextId))
  {
    hide OutputOk, RegistryOk, LifeOk;
    if s.nextId in s.hist {
      assert IdOk(s, s.nextId, false);
    }
  }

  lemma NextIdIsNotPending(s: Tcp, pending: set<nat>)
    requires Inv(s, pending)
    ensures s.nextId !in pending
  {
    hide IdOk, OutputOk, RegistryOk;
  }

  lemma AddConnectionInv(s: Tcp, pending: set<nat>, outgoing: bool, conn: Connection)
    requires Inv(s, pending) && Room(s, 1)
    requires conn == if outgoing then Connection(false, WRITABLE, []) else Connection(true, READABLE, [])
    ensures Inv(AddConnection(s, outgoing, conn), if outgoing then pending else pending + {s.nextId})
  {
    hide NextAfterBirth, Room, LivesOk, OutputOk;
    NextIdIsNotPending(s, pending);
    RebornIsPast(s, pending);
    hide PastLives;
    var id := s.nextId;
    var s' := AddConnection(s, outgoing, conn);
    var pending' := if outgoing then pending else pending + {id};
    assert s'.registered.Keys == {WAKE_ID} + s'.listeners + s'.connections.Keys;
    PastIsTold(s, id);
    assert Past(s', id) == Past(s, id) + [] == Past(s, id);
    hide Lives, Told;
    OutputFrame(s, s');
    LivesFrame(s, pending, s', pending', id);
  }

  lemma AddListenerInv(s: Tcp)
    requires Inv(s, {}) && Room(s, 1)
    ensures Inv(AddListener(s), {})
  {
    hide NextAfterBirth, Room, OutputOk;
    var s' := AddListener(s);
    assert s'.registered.Keys == {WAKE_ID} + s'.listeners + s'.connections.Keys;
    OutputFrame(s, s');
    SilentLives(s, s');
  }

  /** Connections that vanish without an event leave a life that may stop there. */
  lemma SilentLives(s: Tcp, s': Tcp)
    requires LivesOk(s, {}) && s'.hist == s.hist && s'.connections.Keys <= s.connections.Keys
    requires forall id :: id in s'.connections ==> s'.connections[id] == s.connections[id]
    ensures LivesOk(s', {})
  {
    forall id | id in s'.hist
      ensures IdOk(s', id, false)
    {
      assert IdOk(s, id, false);
    }
  }

  lemma CloseInv(s: Tcp, ids: set<nat>)
    requires Inv(s, {}) && ids <= s.connections.Keys
    ensures Inv(s.(connections := s.connections - ids, registered := s.registered - ids), {})
  {
    hide OutputOk, IdOk;
    var s' := s.(connections := s.connections - ids, registered := s.registered - ids);
    assert s'.registered.Keys == {WAKE_ID} + s'.listeners + s'.connections.Keys;
    OutputFrame(s, s');
    SilentLives(s, s');
  }

  lemma CloseListenersInv(s: Tcp, ids: set<nat>)
    requires Inv(s, {}) && ids <= s.listeners
    ensures Inv(s.(listeners := s.listeners - ids, registered := s.registered - ids), {})
  {
    hide OutputOk, IdOk;
    var s' := s.(listeners := s.listeners - ids, registered := s.registered - ids);
    assert s'.registered.Keys == {WAKE_ID} + s'.listeners + s'.connections.Keys;
    OutputFrame(s, s');
    SilentLives(s, s');
  }

  lemma DropAllInv(s: Tcp)
    requires Inv(s, {})
    ensures Inv(DropAll(s), {})
  {
    CloseInv(s, s.connections.Keys);
    assert s.connections - s.connections.Keys == map[];
  }

  lemma DropAllListenersInv(s: Tcp)
    requires Inv(s, {})
    ensures Inv(DropAllListeners(s), {})
  {
    CloseListenersInv(s, s.listeners);
    assert s.listeners - s.listeners == {};
  }

  lemma QueuedOnOk(id: nat, c: Connection, h: History, n: nat, data: bytes)
    requires LiveOk(id, c, h, false)
    ensures LiveOk(id, QueuedOn(c, n, data), h.(queued := h.queued + Repeat(data, n)), false)
  {
    hide OpenWord;
    FlattenConcat(h.queued, Repeat(data, n));
    assert n == 0 ==> h.queued + Repeat(data, n) == h.queued;
  }

  lemma MulticastInv(s: Tcp, targets: multiset<nat>, data: bytes)
    requires Inv(s, {})
    ensures Inv(Multicast(s, targets, data), {})
  {
    hide LiveOk, DeadOk, OutputOk, PastLives, Repeat;
    var s' := Multicast(s, targets, data);
    assert forall id :: SameOutput(s, s', id);
    OutputFrame(s, s');
    forall id | id in s.hist
      ensures IdOk(s', id, false)
    {
      assert IdOk(s, id, false);
      if id in s.connections {
        QueuedOnOk(id, s.connections[id], s.hist[id], targets[id], data);
      }
    }
    assert LivesOk(s', {}) by { hide IdOk; }
    hide LivesOk, IdOk;
    assert s'.registered.Keys == s.registered.Keys && s'.connections.Keys == s.connections.Keys;
  }

  lemma ApplyInv(s: Tcp, request: Request)
    requires Inv(s, {}) && Apply(s, request).Running?
    ensures Inv(Apply(s, request).s, {})
  {
    hide Inv, Multicast, AddConnection, AddListener;
    match request {
      case Connect(ok) => if ok { AddConnectionInv(s, {}, true, Connection(false, WRITABLE, [])); }
      case Listen(ok) => if ok { AddListenerInv(s); }
      case CloseConnection(id) => if id in s.connections { CloseInv(s, {id}); }
      case CloseAllConnections => DropAllInv(s);
      case CloseListener(id) => if id in s.listeners { CloseListenersInv(s, {id}); }
      case CloseAllListeners => DropAllListenersInv(s);
      case CloseAll => DropAllListenersInv(s); DropAllInv(DropAllListeners(s));
      case SendTo(id, data) => MulticastInv(s, multiset{id}, data);
      case SendToMany(ids, data) => MulticastInv(s, multiset(ids), data);
      case Broadcast(data) => MulticastInv(s, multiset(s.connections.Keys), data);
      case BroadcastExcept(data, exceptId) => MulticastInv(s, multiset(s.connections.Keys - {exceptId}), data);
      case BroadcastExceptMany(data, exceptIds) =>
        MulticastInv(s, multiset(s.connections.Keys - (set id | id in exceptIds)), data);
    }
  }

  // ---------------------------------------------------------------------------
  // Emitting events
  // ---------------------------------------------------------------------------

  lemma WordGrows(id: nat, outgoing: bool, es: seq<TransportEvent>, data: bytes)
    requires OpenWord(id, es)
    ensures data != [] ==> OpenWord(id, es + [Data(id, data)])
    ensures LifetimeWord(id, outgoing, es + [Disconnected(id)])
  {
    assert (es + [Disconnected(id)])[..|es|] == es;
  }

  /** Data is emitted only while calm, an end only without the connection. */
  ghost predicate MayEmit(s: Tcp, e: TransportEvent) {
    && !e.Inactive? && e.id in s.hist
    && (e.Data? ==> Calm(s, e.id))
    && (e.Disconnected? || e.ConnectionFailed? ==> e.id !in s.connections)
  }

  lemma OutputEmit(s: Tcp, e: TransportEvent)
    requires OutputOk(s) && MayEmit(s, e)
    ensures OutputOk(Emit(s, e))
  {
    hide EventsOf, Undisturbed, Orderly;
    var s' := Emit(s, e);
    forall id
      ensures OutputAt(s', id)
    {
      assert OutputAt(s, id);
      EventsOfSnoc(s.out, e, id);
      OrderSnoc(s.out, e, id);
      assert Told(s.hist[e.id].before) + (s.hist[e.id].events + [e]) == Past(s, e.id) + [e];
    }
  }

  /** Emitting an event, possibly together with a change of the connection it is about. */
  lemma EmitInv(s: Tcp, pending: set<nat>, s1: Tcp, pending': set<nat>, e: TransportEvent)
    requires Inv(s, pending) && MayEmit(s1, e)
    requires RegistryOk(s1) && IdsOk(s1) && OutputOk(s1)
    requires forall id :: id != e.id ==> SameId(s, s1, id) && (id in pending <==> id in pending')
    requires e.id in pending' ==> e.id in s1.connections
    requires IdOk(Emit(s1, e), e.id, e.id in pending')
    ensures Inv(Emit(s1, e), pending')
  {
    hide OutputOk, IdOk, LivesOk;
    var s' := Emit(s1, e);
    OutputEmit(s1, e);
    assert RegistryOk(s') && IdsOk(s');
    hide RegistryOk, IdsOk;
    forall id | id != e.id
      ensures SameId(s, s', id) && (id in pending <==> id in pending')
    {
      assert SameId(s, s1, id);
    }
    LivesFrame(s, pending, s', pending', e.id);
  }

  lemma RecordReceivedOutput(s: Tcp, id: nat, data: bytes)
    requires OutputOk(s)
    ensures OutputOk(RecordReceived(s, id, data))
  {
    hide EventsOf, Undisturbed, Orderly;
    OutputFrame(s, RecordReceived(s, id, data));
  }

  lemma RecordReceivedRegistry(s: Tcp, id: nat, data: bytes)
    requires RegistryOk(s) && IdsOk(s)
    ensures RegistryOk(RecordReceived(s, id, data)) && IdsOk(RecordReceived(s, id, data))
  {
  }

  lemma RecordNothing(s: Tcp, id: nat)
    ensures RecordReceived(s, id, []) == s
  {
    if id in s.hist {
      assert s.hist[id].received + [] == s.hist[id].received;
      assert s.hist[id := s.hist[id].(received := s.hist[id].received + [])] == s.hist;
    }
  }

  lemma ToldOk(s: Tcp, id: nat, data: bytes)
    requires id in s.hist && IdOk(s, id, false) && OpenWord(id, s.hist[id].events) && data != []
    ensures var s' := EmitData(RecordReceived(s, id, data), id, data);
            && IdOk(s', id, false) && s'.connections == s.connections
            && id in s'.hist && OpenWord(id, s'.hist[id].events)
  {
    WordGrows(id, false, s.hist[id].events, data);
    ReceivedSnoc(s.hist[id].events, Data(id, data));
    hide OpenWord, Received, Flatten;
  }

  /** What the socket hands over is told. */
  lemma HandOverInv(s: Tcp, id: nat, data: bytes)
    requires Inv(s, {}) && id in s.hist && OpenWord(id, s.hist[id].events) && Calm(s, id)
    ensures var s' := EmitData(RecordReceived(s, id, data), id, data);
            && Inv(s', {}) && s'.connections == s.connections
            && id in s'.hist && OpenWord(id, s'.hist[id].events)
  {
    RecordNothing(s, id);
    if data != [] {
      assert IdOk(s, id, false);
      ToldOk(s, id, data);
      RecordReceivedOutput(s, id, data);
      RecordReceivedRegistry(s, id, data);
      hide OutputOk, IdOk, OpenWord, RegistryOk, IdsOk, LivesOk;
      EmitInv(s, {}, RecordReceived(s, id, data), {}, Data(id, data));
    }
  }

  lemma TrackInv(s: Tcp, pending: set<nat>, isSpurious: bool)
    requires Inv(s, pending) && Track(s, isSpurious).Running?
    ensures Inv(Track(s, isSpurious).s, pending)
  {
    hide LiveOk, DeadOk;
    var s' := Track(s, isSpurious).s;
    OutputFrame(s, s');
    forall id | id in s.hist
      ensures IdOk(s', id, id in pending)
    {
      assert IdOk(s, id, id in pending);
    }
  }

  // ---------------------------------------------------------------------------
  // Accepting
  // ---------------------------------------------------------------------------

  predicate Distinct(ids: seq<nat>) {
    forall i, j :: 0 <= i < j < |ids| ==> ids[i] != ids[j]
  }

  function SetOf(ids: seq<nat>): set<nat> {
    set id | id in ids
  }

  lemma {:induction false} AcceptManyInv(s: Tcp, n: nat)
    requires Inv(s, {}) && Room(s, n)
    ensures var (s1, ids) := AcceptMany(s, n); Inv(s1, SetOf(ids)) && Distinct(ids) && |ids| == n
  {
    hide Inv, AddConnection;
    if n == 0 {
      assert SetOf([]) == {};
    } else {
      var (s1, ids) := AcceptMany(s, n - 1);
      AcceptManyInv(s, n - 1);
      NextIdIsNotPending(s1, SetOf(ids));
      AddConnectionInv(s1, SetOf(ids), false, Connection(true, READABLE, []));
      assert SetOf(ids + [s1.nextId]) == SetOf(ids) + {s1.nextId};
    }
  }

  lemma AnnouncedOk(id: nat, c: Connection, h: History)
    requires LiveOk(id, c, h, true)
    ensures LiveOk(id, c, h.(events := h.events + [Connected(id)]), false)
  {
    assert [] + [Connected(id)] == [Connected(id)];
    ReceivedSnoc(h.events, Connected(id));
  }

  lemma EmitOneConnectedInv(s: Tcp, pending: set<nat>, id: nat)
    requires Inv(s, pending) && id in pending
    ensures Inv(Emit(s, Connected(id)), pending - {id})
  {
    assert IdOk(s, id, true);
    AnnouncedOk(id, s.connections[id], s.hist[id]);
    hide LiveOk, DeadOk, PastLives;
    assert IdOk(Emit(s, Connected(id)), id, false);
    hide RegistryOk, IdsOk, OutputOk, IdOk;
    EmitInv(s, pending, s, pending - {id}, Connected(id));
  }

  lemma TailOf(ids: seq<nat>, k: nat)
    requires Distinct(ids) && k < |ids|
    ensures ids[k] in SetOf(ids[k..]) && SetOf(ids[k + 1..]) == SetOf(ids[k..]) - {ids[k]}
  {
    assert ids[k..] == [ids[k]] + ids[k + 1..];
    assert ids[k] !in ids[k + 1..];
  }

  /** The accepted connections are announced one by one. */
  lemma {:induction false} EmitConnectedInv(s: Tcp, ids: seq<nat>, k: nat)
    requires Inv(s, SetOf(ids)) && Distinct(ids) && k <= |ids|
    ensures Inv(EmitConnected(s, ids[..k]), SetOf(ids[k..]))
  {
    hide Inv, Emit, SetOf, Distinct;
    if k == 0 {
      assert ids[0..] == ids;
    } else {
      EmitConnectedInv(s, ids, k - 1);
      TailOf(ids, k - 1);
      assert ids[..k][..k - 1] == ids[..k - 1];
      EmitOneConnectedInv(EmitConnected(s, ids[..k - 1]), SetOf(ids[k - 1..]), ids[k - 1]);
    }
  }

  lemma AcceptPhaseInv(s: Tcp, script: seq<AcceptResult>)
    requires Inv(s, {}) && AcceptPhase(s, script).Running?
    ensures Inv(AcceptPhase(s, script).s, {})
  {
    hide Inv, AcceptMany, AcceptSummary, Track, EmitConnected, Distinct;
    var n := AcceptSummary(script).value;
    var (s1, ids) := AcceptMany(s, n);
    AcceptManyInv(s, n);
    TrackInv(s1, SetOf(ids), n == 0);
    EmitConnectedInv(Track(s1, n == 0).s, ids, n);
    assert ids[..n] == ids && SetOf(ids[n..]) == {};
  }

  // ---------------------------------------------------------------------------
  // Reading and writing
  // ---------------------------------------------------------------------------

  lemma ReadPhaseInv(s: Tcp, ev: PollEvent)
    requires Inv(s, {}) && ev.token in s.connections && !ReadPhase(s, ev).Stops?
    ensures Inv(ReadPhase(s, ev).s, {})
    ensures ReadPhase(s, ev).Stays? ==> ReadPhase(s, ev).s.connections == s.connections
    ensures ReadPhase(s, ev).Leaves? ==> ReadPhase(s, ev).s.connections == s.connections - {ev.token}
  {
    if ev.readable {
      var id := ev.token;
      var io := ReadSummary(ev.readScript, s.maxRead);
      assert IdOk(s, id, false);
      assert OutputAt(s, id);
      ReadIsGiven(ev.readScript, s.maxRead);
      hide IdOk, OutputOk, RegistryOk, IdsOk, ReadSummary, Given, Ended;
      if io.closed {
        CloseInv(s, {id});
        HandOverInv(Drop(s, id), id, io.data);
        EmitDisconnectedInv(EmitData(RecordReceived(Drop(s, id), id, io.data), id, io.data), id);
      } else {
        TrackInv(s, {}, io.data == []);
        HandOverInv(Track(s, io.data == []).s, id, io.data);
      }
    }
  }

  lemma EmitDisconnectedInv(s: Tcp, id: nat)
    requires Inv(s, {}) && id in s.hist && id !in s.connections
    requires OpenWord(id, s.hist[id].events) || LostBeforeConnected(id, ThisLife(s.hist[id]).(events := [Disconnected(id)]))
    requires OpenWord(id, s.hist[id].events) || s.hist[id].events == []
    ensures Inv(Emit(s, Disconnected(id)), {})
  {
    assert IdOk(s, id, false);
    if OpenWord(id, s.hist[id].events) {
      WordGrows(id, false, s.hist[id].events, []);
    }
    hide RegistryOk, IdsOk, OutputOk, LivesOk;
    EmitInv(s, {}, s, {}, Disconnected(id));
  }

  /** What the write loop leaves of one connection. */
  lemma WrittenOk(id: nat, c: Connection, h: History, sent: nat)
    requires LiveOk(id, c, h, false) && sent <= |c.sendBuf|
    ensures var h' := h.(written := h.written + c.sendBuf[..sent]);
            && h'.written <= Flatten(h'.queued)
            && h'.written + c.sendBuf[sent..] == Flatten(h'.queued)
            && (sent < |c.sendBuf| ==> Flatten(h'.queued) != [])
  {
    assert c.sendBuf == c.sendBuf[..sent] + c.sendBuf[sent..];
  }

  lemma RegistryAfterDrop(s: Tcp, s': Tcp, id: nat)
    requires RegistryOk(s) && IdsOk(s) && id in s.connections
    requires s'.connections == s.connections - {id} && s'.registered == s.registered - {id}
    requires s'.listeners == s.listeners && s'.nextId == s.nextId
    ensures RegistryOk(s') && IdsOk(s')
  {
    assert s'.registered.Keys == {WAKE_ID} + s'.listeners + s'.connections.Keys;
  }

  lemma RegistryAfterPut(s: Tcp, s': Tcp, id: nat)
    requires RegistryOk(s) && IdsOk(s) && id in s.connections && id in s'.connections
    requires s'.connections == s.connections[id := s'.connections[id]]
    requires s'.registered == s.registered[id := s'.connections[id].interest]
    requires s'.listeners == s.listeners && s'.nextId == s.nextId
    ensures RegistryOk(s') && IdsOk(s')
  {
    assert s'.registered.Keys == {WAKE_ID} + s'.listeners + s'.connections.Keys;
  }

  /** A step that touches one id and emits nothing. */
  lemma TouchInv(s: Tcp, s': Tcp, id: nat)
    requires Inv(s, {}) && RegistryOk(s') && IdsOk(s') && s'.out == s.out
    requires forall other :: other != id ==> SameId(s, s', other)
    requires id in s'.hist && IdOk(s', id, false) && SameOutput(s, s', id)
    ensures Inv(s', {})
  {
    hide OutputOk, IdOk, RegistryOk, IdsOk;
    forall other
      ensures SameOutput(s, s', other)
    {
      assert other != id ==> SameId(s, s', other);
    }
    OutputFrame(s, s');
    LivesFrame(s, {}, s', {}, id);
  }

  /** A life that stops in the middle of a write. */
  lemma StoppedOk(id: nat, c: Connection, h: History, taken: bytes)
    requires LiveOk(id, c, h, false) && taken <= c.sendBuf
    ensures DeadOk(id, h.(written := h.written + taken))
  {
    hide OpenWord;
    WrittenOk(id, c, h, |taken|);
    assert c.sendBuf[..|taken|] == taken;
  }

  lemma StoppedIdOk(s: Tcp, id: nat, taken: bytes)
    requires id in s.connections && id in s.hist && IdOk(s, id, false) && taken <= s.connections[id].sendBuf
    ensures id in Drop(RecordWritten(s, id, taken), id).hist && IdOk(Drop(RecordWritten(s, id, taken), id), id, false)
  {
    hide DeadOk, PastLives;
    StoppedOk(id, s.connections[id], s.hist[id], taken) by { assert IdOk(s, id, false); }
  }

  lemma StoppedTouches(s: Tcp, id: nat, taken: bytes)
    requires id in s.connections && id in s.hist
    ensures var s' := Drop(RecordWritten(s, id, taken), id);
            && s'.connections == s.connections - {id} && s'.registered == s.registered - {id}
            && s'.listeners == s.listeners && s'.nextId == s.nextId && s'.out == s.out
            && SameOutput(s, s', id) && forall other :: other != id ==> SameId(s, s', other)
  {
  }

  lemma WriteDropInv(s: Tcp, id: nat, taken: bytes)
    requires Inv(s, {}) && id in s.connections && taken <= s.connections[id].sendBuf
    ensures Inv(Drop(RecordWritten(s, id, taken), id), {})
  {
    var s' := Drop(RecordWritten(s, id, taken), id);
    assert IdOk(s, id, false);
    hide OutputOk, RegistryOk, IdsOk, LivesOk;
    StoppedIdOk(s, id, taken);
    hide IdOk;
    StoppedTouches(s, id, taken);
    hide RecordWritten, Drop, SameId, SameOutput;
    RegistryAfterDrop(s, s', id);
    TouchInv(s, s', id);
  }

  /** A surviving write: the connection is connected, what the socket took and the bytes that remain make up the
      buffer, and WRITABLE is asked for exactly when bytes remain. */
  lemma WriteSurvives(s: Tcp, id: nat, socketError: bool, script: seq<WriteResult>)
    requires Inv(s, {}) && id in s.connections
    requires var o := WriteConnection(s, id, socketError, script).outcome; o.WriteOk? || o.WriteConnected?
    ensures var w := WriteConnection(s, id, socketError, script);
            var (c, c', taken) := (s.connections[id], w.s.connections[id], Taken(script, s.connections[id].sendBuf));
            && id in s.hist && taken + c'.sendBuf == c.sendBuf && w.sent == |taken|
            && w.s.connections == s.connections[id := c']
            && c'.connected && c'.interest.readable && (c'.interest.writable <==> c'.sendBuf != [])
            && w.s.hist == s.hist[id := s.hist[id].(written := s.hist[id].written + taken)]
            && w.s.registered == s.registered[id := c'.interest]
            && w.s.listeners == s.listeners && w.s.nextId == s.nextId && w.s.out == s.out
            && (w.outcome.WriteConnected? <==> !c.connected)
  {
    assert IdOk(s, id, false);
    var c := s.connections[id];
    assert c.connected ==> c.interest.readable && (c.sendBuf != [] ==> c.interest.writable);
    hide Inv, IdOk;
    WriteStates(s, id, socketError, script);
    hide WriteConnection, Taken, Broken;
  }

  /** What a surviving write leaves for the other ids, and for the events. */
  lemma WriteTouchesOne(s: Tcp, id: nat, socketError: bool, script: seq<WriteResult>)
    requires id in s.connections
    requires var o := WriteConnection(s, id, socketError, script).outcome; o.WriteOk? || o.WriteConnected?
    ensures var w := WriteConnection(s, id, socketError, script);
            && (forall other :: SameOutput(s, w.s, other))
            && forall other :: other != id ==> SameId(s, w.s, other)
  {
    WriteStates(s, id, socketError, script);
    hide WriteConnection, Taken, Broken;
  }

  lemma WriteOkInv(s: Tcp, id: nat, socketError: bool, script: seq<WriteResult>)
    requires Inv(s, {}) && id in s.connections
    requires WriteConnection(s, id, socketError, script).outcome.WriteOk?
    ensures Inv(WriteConnection(s, id, socketError, script).s, {})
  {
    hide OutputOk, OpenWord, RegistryOk, IdsOk, WriteConnection, Taken;
    var w := WriteConnection(s, id, socketError, script);
    WriteSurvives(s, id, socketError, script);
    WriteTouchesOne(s, id, socketError, script);
    assert IdOk(s, id, false);
    WrittenOk(id, s.connections[id], s.hist[id], w.sent);
    assert IdOk(w.s, id, false);
    hide LivesOk, IdOk, SameId, SameOutput;
    RegistryAfterPut(s, w.s, id);
    TouchInv(s, w.s, id);
  }

  lemma ConnectedOk(id: nat, c: Connection, h: History, c': Connection, taken: bytes)
    requires LiveOk(id, c, h, false) && !c.connected
    requires taken + c'.sendBuf == c.sendBuf
    requires c'.connected && c'.interest.readable && (c'.interest.writable <==> c'.sendBuf != [])
    ensures LiveOk(id, c', h.(written := h.written + taken, events := h.events + [Connected(id)]), false)
  {
    assert [] + [Connected(id)] == [Connected(id)];
    ReceivedSnoc(h.events, Connected(id));
    assert h.written + taken + c'.sendBuf == h.written + c.sendBuf;
  }

  lemma WriteConnectedInv(s: Tcp, id: nat, socketError: bool, script: seq<WriteResult>)
    requires Inv(s, {}) && id in s.connections
    requires WriteConnection(s, id, socketError, script).outcome.WriteConnected?
    ensures Inv(Emit(WriteConnection(s, id, socketError, script).s, Connected(id)), {})
  {
    hide OutputOk, RegistryOk, IdsOk, WriteConnection, Taken, LiveOk, DeadOk, PastLives;
    var w := WriteConnection(s, id, socketError, script);
    WriteSurvives(s, id, socketError, script);
    WriteTouchesOne(s, id, socketError, script);
    assert IdOk(s, id, false);
    ConnectedOk(id, s.connections[id], s.hist[id], w.s.connections[id], Taken(script, s.connections[id].sendBuf));
    assert IdOk(Emit(w.s, Connected(id)), id, false);
    hide LivesOk, IdOk;
    RegistryAfterPut(s, w.s, id);
    OutputFrame(s, w.s);
    EmitInv(s, {}, w.s, {}, Connected(id));
  }

  /** A lost connection reports Disconnected. */
  lemma WriteLostInv(s: Tcp, id: nat, socketError: bool, script: seq<WriteResult>)
    requires Inv(s, {}) && id in s.connections
    requires WriteConnection(s, id, socketError, script).outcome.WriteDisconnected?
    ensures Inv(Emit(WriteConnection(s, id, socketError, script).s, Disconnected(id)), {})
  {
    assert IdOk(s, id, false);
    var (c, h, taken) := (s.connections[id], s.hist[id], Taken(script, s.connections[id].sendBuf));
    SentIsTaken(script, c.sendBuf);
    WrittenOk(id, c, h, |taken|);
    assert c.sendBuf[..|taken|] == taken;
    var s' := Drop(RecordWritten(s, id, taken), id);
    assert WriteConnection(s, id, socketError, script).s == s';
    assert c.connected ==> OpenWord(id, h.events);
    assert !c.connected ==> h.outgoing && h.events == [] && Flatten(h.queued) != [];
    hide WriteConnection, WriteSummary, Taken, Broken, OutputOk, RegistryOk, IdsOk, IdOk, LivesOk, OpenWord;
    WriteDropInv(s, id, taken);
    EmitDisconnectedInv(s', id);
  }

  /** A refused one reports ConnectionFailed. */
  lemma WriteRefusedInv(s: Tcp, id: nat, socketError: bool, script: seq<WriteResult>)
    requires Inv(s, {}) && id in s.connections
    requires WriteConnection(s, id, socketError, script).outcome.WriteConnectionFailed?
    ensures Inv(Emit(WriteConnection(s, id, socketError, script).s, ConnectionFailed(id)), {})
  {
    hide OutputOk, RegistryOk, IdsOk, WriteSummary, Taken;
    assert IdOk(s, id, false);
    CloseInv(s, {id});
    EmitFailedInv(Drop(s, id), id);
  }

  lemma WritePhaseInv(s: Tcp, ev: PollEvent)
    requires Inv(s, {}) && ev.token in s.connections && !WritePhase(s, ev).Stops?
    ensures Inv(WritePhase(s, ev).s, {})
  {
    if ev.writable {
      var id := ev.token;
      var w := WriteConnection(s, id, ev.socketError, ev.writeScript);
      hide Inv, WriteConnection;
      if w.outcome.WriteDisconnected? {
        WriteLostInv(s, id, ev.socketError, ev.writeScript);
      } else if w.outcome.WriteConnectionFailed? {
        WriteRefusedInv(s, id, ev.socketError, ev.writeScript);
      } else if w.outcome.WriteOk? {
        WriteOkInv(s, id, ev.socketError, ev.writeScript);
        TrackInv(w.s, {}, w.sent == 0);
      } else {
        WriteConnectedInv(s, id, ev.socketError, ev.writeScript);
      }
    }
  }

  /** A phase takes away its own connection or none. */
  lemma ReadPhaseKeys(s: Tcp, ev: PollEvent)
    requires ev.token in s.connections
    ensures var r := ReadPhase(s, ev);
            && (r.Stays? ==> r.s.connections == s.connections && r.s.listeners == s.listeners)
            && (r.Leaves? ==> r.s.connections == s.connections - {ev.token} && r.s.listeners == s.listeners)
  {
    hide ReadSummary;
  }

  lemma WriteConnectionKeys(s: Tcp, id: nat, socketError: bool, script: seq<WriteResult>)
    requires id in s.connections
    ensures var w := WriteConnection(s, id, socketError, script);
            && w.s.listeners == s.listeners
            && w.s.connections.Keys == if w.outcome.WriteOk? || w.outcome.WriteConnected? then s.connections.Keys
                                       else s.connections.Keys - {id}
  {
    hide WriteSummary;
  }

  lemma WritePhaseKeys(s: Tcp, ev: PollEvent)
    requires ev.token in s.connections
    ensures var w := WritePhase(s, ev);
            && (w.Stays? ==> w.s.connections.Keys == s.connections.Keys && w.s.listeners == s.listeners)
            && (w.Leaves? ==> w.s.connections.Keys == s.connections.Keys - {ev.token} && w.s.listeners == s.listeners)
  {
    hide WriteConnection;
    WriteConnectionKeys(s, ev.token, ev.socketError, ev.writeScript);
  }

  lemma EmitFailedInv(s: Tcp, id: nat)
    requires Inv(s, {}) && id in s.hist && id !in s.connections
    requires s.hist[id].outgoing && s.hist[id].events == []
    ensures Inv(Emit(s, ConnectionFailed(id)), {})
  {
    assert IdOk(s, id, false);
    assert [] + [ConnectionFailed(id)] == [ConnectionFailed(id)];
    assert IdOk(Emit(s, ConnectionFailed(id)), id, false);
    hide RegistryOk, IdsOk, OutputOk, LivesOk, IdOk;
    EmitInv(s, {}, s, {}, ConnectionFailed(id));
  }

  // ---------------------------------------------------------------------------
  // Cleanup: the batch loop never meets a token it cannot account for
  // ---------------------------------------------------------------------------

  /** Every token polled at the start of the batch is the waker, a listener, a live connection, or in
      `disconnected_ids`. */
  predicate Accounted(s: Tcp, disconnected: set<nat>, tokens: set<nat>) {
    tokens <= {WAKE_ID} + s.listeners + s.connections.Keys + disconnected
  }

  lemma {:induction false} AcceptKeepsLive(s: Tcp, n: nat)
    requires Room(s, n)
    ensures s.connections.Keys <= AcceptMany(s, n).0.connections.Keys
  {
    hide NextAfterBirth;
    if n > 0 {
      AcceptKeepsLive(s, n - 1);
    }
  }

  lemma {:induction false} EmitConnectedKeepsLive(s: Tcp, ids: seq<nat>)
    ensures EmitConnected(s, ids).connections == s.connections && EmitConnected(s, ids).listeners == s.listeners
  {
    if ids != [] {
      EmitConnectedKeepsLive(s, ids[..|ids| - 1]);
    }
  }

  lemma AcceptPhaseKeepsLive(s: Tcp, script: seq<AcceptResult>)
    requires AcceptPhase(s, script).Running?
    ensures var s' := AcceptPhase(s, script).s;
            s.connections.Keys <= s'.connections.Keys && s'.listeners == s.listeners
  {
    hide AcceptMany, AcceptSummary, EmitConnected;
    var n := AcceptSummary(script).value;
    AcceptKeepsLive(s, n);
    var (s1, ids) := AcceptMany(s, n);
    EmitConnectedKeepsLive(Track(s1, n == 0).s, ids);
  }

  /** One token: the invariant and the account are kept, and the cleanup assertion holds. */
  lemma HandleTokenInv(s: Tcp, disconnected: set<nat>, ev: PollEvent, tokens: set<nat>)
    requires Inv(s, {}) && Accounted(s, disconnected, tokens) && ev.token in tokens
    ensures match HandleToken(s, disconnected, ev)
            case Stopped(why) => why != MissingConnection
            case Next(s', disconnected') => Inv(s', {}) && Accounted(s', disconnected', tokens)
  {
    hide Inv, AcceptPhase, ReadPhase, WritePhase;
    HaltReasons(s, ev);
    if ev.token != WAKE_ID && ev.token in s.listeners {
      if AcceptPhase(s, ev.acceptScript).Running? {
        AcceptPhaseInv(s, ev.acceptScript);
        AcceptPhaseKeepsLive(s, ev.acceptScript);
      }
    } else if ev.token in s.connections {
      ReadPhaseKeys(s, ev);
      var r := ReadPhase(s, ev);
      if !r.Stops? {
        ReadPhaseInv(s, ev);
      }
      if r.Stays? {
        HaltReasons(r.s, ev);
        WritePhaseKeys(r.s, ev);
        if !WritePhase(r.s, ev).Stops? {
          WritePhaseInv(r.s, ev);
        }
      }
    }
  }

  lemma HaltReasons(s: Tcp, ev: PollEvent)
    ensures AcceptPhase(s, ev.acceptScript) != Halted(MissingConnection)
    ensures ev.token in s.connections ==> ReadPhase(s, ev) != Stops(MissingConnection)
    ensures ev.token in s.connections ==> WritePhase(s, ev) != Stops(MissingConnection)
  {
    hide AcceptMany, EmitConnected, AcceptSummary, ReadSummary, WriteConnection;
  }

  lemma {:induction false} HandleBatchInv(s: Tcp, events: seq<PollEvent>)
    requires Inv(s, {})
    requires forall i :: 0 <= i < |events| ==> events[i].token in s.registered
    ensures match HandleBatch(s, events)
            case Stopped(why) => why != MissingConnection
            case Next(s', disconnected) => Inv(s', {}) && Accounted(s', disconnected, s.registered.Keys)
  {
    hide HandleToken;
    if events != [] {
      var init := events[..|events| - 1];
      HandleBatchInv(s, init);
      if HandleBatch(s, init).Next? {
        var b := HandleBatch(s, init);
        hide Inv;
        HandleTokenInv(b.s, b.disconnected, events[|events| - 1], s.registered.Keys);
      }
    } else {
      hide OutputOk, LivesOk, IdsOk;
    }
  }

  lemma InactiveInv(s: Tcp)
    requires Inv(s, {}) && s.connections == map[]
    ensures Inv(Emit(s, Inactive), {})
  {
    hide IdOk, EventsOf, Undisturbed, Orderly;
    var s' := Emit(s, Inactive);
    forall id
      ensures OutputAt(s', id)
    {
      assert OutputAt(s, id);
      EventsOfSnoc(s.out, Inactive, id);
      OrderSnoc(s.out, Inactive, id);
    }
    SilentLives(s, s');
  }

  lemma StepInv(s: Tcp, op: Op)
    requires Inv(s, {})
    ensures match Step(s, op)
            case Halted(why) => why != MissingConnection
            case Running(s') => Inv(s', {})
  {
    hide Inv, Apply, HandleBatch, Polled;
    match op {
      case Call(request) =>
        ApplyHaltReasons(s, request);
        if Apply(s, request).Running? {
          ApplyInv(s, request);
        }
      case Poll(batch) =>
        if s.connections == map[] {
          InactiveInv(s);
        }
        HandleBatchInv(s, Polled(batch, s.registered.Keys));
    }
  }

  lemma ApplyHaltReasons(s: Tcp, request: Request)
    ensures Apply(s, request) != Halted(MissingConnection)
  {
    hide AddConnection, AddListener, Multicast;
  }

  lemma {:induction false} ExecInv(s: Tcp, ops: seq<Op>)
    requires Inv(s, {})
    ensures match Exec(s, ops)
            case Halted(why) => why != MissingConnection
            case Running(s') => Inv(s', {})
  {
    hide Inv, Step;
    if ops != [] {
      ExecInv(s, ops[..|ops| - 1]);
      if Exec(s, ops[..|ops| - 1]).Running? {
        StepInv(Exec(s, ops[..|ops| - 1]).s, ops[|ops| - 1]);
      }
    }
  }
}
