/** What every run of the TLS transport keeps: registry, status and events, plaintext, wakeups. */
module TlsProofs {
  import opened Bytes
  import opened TransportTypes
  import opened Ids
  import opened TlsModel
  import opened TlsLibrary

  // ---------------------------------------------------------------------------
  // The invariant
  // ---------------------------------------------------------------------------

  /** One Connected, at position `k`, and otherwise non-empty Data. */
  predicate OpensAt(id: nat, es: seq<TransportEvent>, k: nat) {
    && k < |es| && es[k] == Connected(id)
    && forall i :: 0 <= i < |es| && i != k ==> es[i].Data? && es[i].id == id && es[i].data != []
  }

  /** The events of an established connection. The read that completes the handshake reports its data first,
      so one Data event may come before Connected. */
  predicate OpenWord(id: nat, es: seq<TransportEvent>) {
    OpensAt(id, es, 0) || OpensAt(id, es, 1)
  }

  predicate LifetimeWord(id: nat, es: seq<TransportEvent>) {
    || es == []
    || OpenWord(id, es)
    || es == [ConnectionFailed(id)]
    || (es != [] && OpenWord(id, es[..|es| - 1]) && es[|es| - 1] == Disconnected(id))
  }

  predicate LiveOk(id: nat, c: Connection, h: History) {
    && (if c.status.TlsConnected? then OpenWord(id, h.events) else h.events == [] && h.plaintext == [])
    && (if c.status.NotConnected? then h.outgoing && c.interest == WRITABLE else c.interest.readable)
    && h.plaintext + c.sendBuf == Flatten(h.queued)
    && (c.status.TlsConnected? && c.sendBuf != [] ==> c.interest.writable)
  }

  predicate DeadOk(id: nat, h: History) {
    && LifetimeWord(id, h.events)
    && h.plaintext <= Flatten(h.queued)
    && (h.events == [] || h.events == [ConnectionFailed(id)] ==> h.plaintext == [])
  }

  /** The events of any number of lives, one after the other. */
  ghost predicate PastLives(id: nat, es: seq<TransportEvent>)
    decreases |es|
  {
    es == [] || exists k | 0 <= k < |es| :: PastLives(id, es[..k]) && LifetimeWord(id, es[k..])
  }

  ghost predicate IdOk(s: Tls, id: nat)
    requires id in s.hist
  {
    && PastLives(id, s.hist[id].before)
    && if id in s.connections then LiveOk(id, s.connections[id], s.hist[id]) else DeadOk(id, s.hist[id])
  }

  ghost predicate LivesOk(s: Tls) {
    s.connections.Keys <= s.hist.Keys && forall id :: id in s.hist ==> IdOk(s, id)
  }

  /** Poll knows the waker, the listeners and the connections, each with the interest stored for it; ids in use
      are in the range, never shared, and never the one prepared for the next connection. */
  ghost predicate RegistryOk(s: Tls) {
    && s.registered.Keys == {WAKE_ID} + s.listeners + s.connections.Keys
    && (forall id :: id in s.connections ==> s.registered[id] == s.connections[id].interest)
    && s.connections.Keys !! s.listeners && s.nextId !in s.connections && s.nextId !in s.listeners
    && (forall id :: id in s.connections || id in s.listeners ==> InRange(id))
  }

  /** The events handed out for an id are those of its lives, and their Data carries all plaintext that was handed
      over by the TLS library. */
  ghost predicate OutputOk(s: Tls) {
    forall id :: EventsOf(s.out, id) == Past(s, id) && Received(Past(s, id)) == HandedOver(s, id)
  }

  ghost predicate Inv(s: Tls) {
    RegistryOk(s) && LivesOk(s) && OutputOk(s)
  }

  // ---------------------------------------------------------------------------
  // Frames
  // ---------------------------------------------------------------------------

  ghost predicate SameId(s: Tls, s': Tls, id: nat) {
    && (id in s.connections <==> id in s'.connections)
    && (id in s.connections ==> s'.connections[id] == s.connections[id])
    && (id in s.hist <==> id in s'.hist)
    && (id in s.hist ==> s'.hist[id] == s.hist[id])
  }

  lemma LivesFrame(s: Tls, s': Tls, id: nat)
    requires LivesOk(s) && id in s'.hist && IdOk(s', id)
    requires forall other :: other != id ==> SameId(s, s', other)
    ensures LivesOk(s')
  {
    hide LiveOk, DeadOk, PastLives;
    forall other | other in s'.hist
      ensures IdOk(s', other)
    {
      assert other != id ==> SameId(s, s', other);
    }
    forall other | other in s'.connections
      ensures other in s'.hist
    {
      assert other != id ==> SameId(s, s', other);
    }
  }

  /** Nothing was emitted and no life lost an event. */
  lemma OutputFrame(s: Tls, s': Tls)
    requires OutputOk(s) && s'.out == s.out
    requires forall id :: Past(s', id) == Past(s, id) && HandedOver(s', id) == HandedOver(s, id)
    ensures OutputOk(s')
  {
    hide Past, HandedOver, EventsOf;
  }

  lemma {:induction false} AllAboutOne(es: seq<TransportEvent>, id: nat, other: nat)
    requires forall e :: e in es ==> About(e, id)
    ensures EventsOf(es, other) == if other == id then es else []
  {
    if es != [] {
      AllAboutOne(es[..|es| - 1], id, other);
      assert About(es[|es| - 1], id);
      assert es == es[..|es| - 1] + [es[|es| - 1]];
    }
  }

  /** From `s` to `s'` the events `es` of `id` are told, and nothing else happens to any other id. */
  ghost predicate Tells(s: Tls, s': Tls, id: nat, es: seq<TransportEvent>) {
    && id in s.hist && id in s'.hist
    && (forall e :: e in es ==> About(e, id))
    && s'.out == s.out + es && s'.listeners == s.listeners && s'.nextId == s.nextId
    && s'.hist[id].before == s.hist[id].before && s'.hist[id].events == s.hist[id].events + es
    && s'.hist[id].received == s.hist[id].received + Received(es)
    && s'.hist == s.hist[id := s'.hist[id]]
  }

  /** The connection is dropped, or is there in a new state. */
  ghost predicate Changes(s: Tls, s': Tls, id: nat) {
    if id in s'.connections then
      && s'.connections == s.connections[id := s'.connections[id]]
      && s'.registered == s.registered[id := s'.connections[id].interest]
    else s'.connections == s.connections - {id} && s'.registered == s.registered - {id}
  }

  lemma OutputTold(s: Tls, s': Tls, id: nat, es: seq<TransportEvent>)
    requires OutputOk(s) && Tells(s, s', id, es)
    ensures OutputOk(s')
  {
    hide EventsOf, Received;
    forall other
      ensures EventsOf(s'.out, other) == Past(s', other) && Received(Past(s', other)) == HandedOver(s', other)
    {
      EventsOfConcat(s.out, es, other);
      AllAboutOne(es, id, other);
      ReceivedConcat(Past(s, id), es);
      assert s.hist[id].before + (s.hist[id].events + es) == Past(s, id) + es;
    }
  }

  lemma RegistryAfterPut(s: Tls, s': Tls, id: nat)
    requires RegistryOk(s) && id in s.connections && id in s'.connections
    requires s'.connections == s.connections[id := s'.connections[id]]
    requires s'.registered == s.registered[id := s'.connections[id].interest]
    requires s'.listeners == s.listeners && s'.nextId == s.nextId
    ensures RegistryOk(s')
  {
    assert s'.registered.Keys == {WAKE_ID} + s'.listeners + s'.connections.Keys;
  }

  lemma RegistryAfterDrop(s: Tls, s': Tls, id: nat)
    requires RegistryOk(s) && id in s.connections
    requires s'.connections == s.connections - {id} && s'.registered == s.registered - {id}
    requires s'.listeners == s.listeners && s'.nextId == s.nextId
    ensures RegistryOk(s')
  {
    assert s'.registered.Keys == {WAKE_ID} + s'.listeners + s'.connections.Keys;
  }

  // ---------------------------------------------------------------------------
  // Calls
  // ---------------------------------------------------------------------------

  lemma InitInv(maxRead: nat)
    ensures Inv(Init(maxRead))
  {
  }

  lemma PastLivesGrow(id: nat, before: seq<TransportEvent>, events: seq<TransportEvent>)
    requires PastLives(id, before) && LifetimeWord(id, events)
    ensures PastLives(id, before + events)
  {
    if events == [] {
      assert before + events == before;
    } else {
      var es := before + events;
      assert es[..|before|] == before && es[|before|..] == events;
    }
  }

  lemma DeadIsPast(s: Tls, id: nat)
    requires LivesOk(s) && id !in s.connections
    ensures PastLives(id, Past(s, id))
  {
    if id in s.hist {
      assert IdOk(s, id);
      PastLivesGrow(id, s.hist[id].before, s.hist[id].events);
    }
  }

  lemma NewIsOk(id: nat, outgoing: bool, before: seq<TransportEvent>, received: bytes)
    ensures LiveOk(id, NewConnection(outgoing), History(outgoing, before, [], [], [], received))
  {
  }

  lemma AddedHistory(s: Tls, outgoing: bool)
    requires Room(s, 1)
    ensures var s' := AddConnection(s, outgoing);
            && s.nextId in s'.connections && s'.connections[s.nextId] == NewConnection(outgoing)
            && s.nextId in s'.hist && s'.hist[s.nextId] == History(outgoing, Past(s, s.nextId), [], [], [], HandedOver(s, s.nextId))
            && Past(s', s.nextId) == Past(s, s.nextId) && HandedOver(s', s.nextId) == HandedOver(s, s.nextId)
  {
    hide NextAfterBirth, Room;
    assert Past(AddConnection(s, outgoing), s.nextId) == Past(s, s.nextId) + [];
  }

  lemma AddedIdOk(s: Tls, outgoing: bool)
    requires LivesOk(s) && s.nextId !in s.connections && Room(s, 1)
    ensures s.nextId in AddConnection(s, outgoing).hist && IdOk(AddConnection(s, outgoing), s.nextId)
  {
    DeadIsPast(s, s.nextId);
    hide PastLives, LivesOk, LiveOk, DeadOk, AddConnection, NewConnection, Past, Room;
    AddedHistory(s, outgoing);
    NewIsOk(s.nextId, outgoing, Past(s, s.nextId), HandedOver(s, s.nextId));
  }

  lemma RegistryAfterAdd(s: Tls, outgoing: bool)
    requires RegistryOk(s) && Room(s, 1)
    ensures RegistryOk(AddConnection(s, outgoing))
  {
    hide NextAfterBirth, Room, Past;
    var s' := AddConnection(s, outgoing);
    assert s'.registered.Keys == {WAKE_ID} + s'.listeners + s'.connections.Keys;
  }

  lemma AddedTouches(s: Tls, outgoing: bool)
    requires Room(s, 1)
    ensures var s' := AddConnection(s, outgoing);
            && s'.out == s.out && s.nextId in s'.hist
            && forall other :: other != s.nextId ==>
                 SameId(s, s', other) && Past(s', other) == Past(s, other) && HandedOver(s', other) == HandedOver(s, other)
  {
    hide NextAfterBirth;
  }

  lemma AddConnectionInv(s: Tls, outgoing: bool)
    requires Inv(s) && Room(s, 1)
    ensures Inv(AddConnection(s, outgoing))
  {
    var s' := AddConnection(s, outgoing);
    assert RegistryOk(s') by { hide LivesOk, OutputOk; RegistryAfterAdd(s, outgoing); }
    hide OutputOk, IdOk, LivesOk;
    AddedIdOk(s, outgoing);
    AddedHistory(s, outgoing);
    hide RegistryOk;
    AddedTouches(s, outgoing);
    hide AddConnection;
    OutputFrame(s, s') by { hide Past, HandedOver; }
    LivesFrame(s, s', s.nextId);
  }

  lemma {:induction false} AcceptManyInv(s: Tls, n: nat)
    requires Inv(s) && Room(s, n)
    ensures Inv(AcceptMany(s, n)) && s.connections.Keys <= AcceptMany(s, n).connections.Keys
  {
    hide Inv, NextAfterBirth;
    if n > 0 {
      AcceptManyInv(s, n - 1);
      AddConnectionInv(AcceptMany(s, n - 1), false);
    }
  }

  lemma RegistryAfterListen(s: Tls)
    requires RegistryOk(s) && Room(s, 1)
    ensures RegistryOk(AddListener(s))
  {
    hide NextAfterBirth, Room;
    var s' := AddListener(s);
    assert s'.registered.Keys == {WAKE_ID} + s'.listeners + s'.connections.Keys;
  }

  lemma ListenInv(s: Tls)
    requires Inv(s) && Room(s, 1)
    ensures Inv(AddListener(s))
  {
    hide OutputOk, LiveOk, DeadOk, PastLives, NextAfterBirth, RegistryOk, Room;
    RegistryAfterListen(s);
    OutputFrame(s, AddListener(s));
    SilentLives(s, AddListener(s));
  }

  /** Connections may vanish at any time: what was told so far is then a whole life. */
  lemma SilentLives(s: Tls, s': Tls)
    requires LivesOk(s) && s'.hist == s.hist && s'.connections.Keys <= s.connections.Keys
    requires forall id :: id in s'.connections ==> s'.connections[id] == s.connections[id]
    ensures LivesOk(s')
  {
    hide PastLives;
    forall id | id in s'.hist
      ensures IdOk(s', id)
    {
      assert IdOk(s, id);
    }
  }

  lemma DropInv(s: Tls, id: nat)
    requires Inv(s) && id in s.connections
    ensures Inv(Drop(s, id))
  {
    hide OutputOk, RegistryOk, IdOk;
    RegistryAfterDrop(s, Drop(s, id), id);
    OutputFrame(s, Drop(s, id));
    SilentLives(s, Drop(s, id));
  }

  lemma QueuedOk(id: nat, c: Connection, h: History, data: bytes)
    requires LiveOk(id, c, h)
    ensures LiveOk(id, Connection(c.status, Interest(c.interest.readable, true), c.sendBuf + data),
                   h.(queued := h.queued + [data]))
  {
    hide OpenWord;
    FlattenSnoc(h.queued, data);
    assert h.plaintext + (c.sendBuf + data) == h.plaintext + c.sendBuf + data;
  }

  lemma QueuedIdOk(s: Tls, id: nat, data: bytes)
    requires LivesOk(s) && id in s.connections
    ensures id in s.hist && IdOk(QueueData(s, id, data), id)
  {
    hide PastLives, LiveOk, DeadOk;
    assert IdOk(s, id);
    QueuedOk(id, s.connections[id], s.hist[id], data);
  }

  lemma QueueChanges(s: Tls, id: nat, data: bytes)
    requires id in s.connections && id in s.hist
    ensures var s' := QueueData(s, id, data);
            && id in s'.connections && id in s'.hist
            && s'.connections == s.connections[id := s'.connections[id]]
            && s'.registered == s.registered[id := s'.connections[id].interest]
            && s'.hist == s.hist[id := s.hist[id].(queued := s.hist[id].queued + [data])]
            && s'.listeners == s.listeners && s'.nextId == s.nextId && s'.out == s.out
  {
  }

  lemma QueueTouchesOne(s: Tls, id: nat, data: bytes)
    requires id in s.connections && id in s.hist
    ensures var s' := QueueData(s, id, data);
            && (forall other :: other != id ==> SameId(s, s', other))
            && forall other :: Past(s', other) == Past(s, other) && HandedOver(s', other) == HandedOver(s, other)
  {
    QueueChanges(s, id, data);
    hide QueueData;
  }

  /** The data of a send joins the pending bytes, whatever the status. */
  lemma QueueDataInv(s: Tls, id: nat, data: bytes)
    requires Inv(s)
    ensures Inv(QueueData(s, id, data))
  {
    if id in s.connections {
      hide RegistryOk, OutputOk, IdOk, LivesOk;
      QueuedIdOk(s, id, data);
      hide QueueData;
      var s' := QueueData(s, id, data);
      QueueChanges(s, id, data);
      QueueTouchesOne(s, id, data);
      RegistryAfterPut(s, s', id);
      hide Past, HandedOver, SameId;
      OutputFrame(s, s');
      LivesFrame(s, s', id);
    }
  }

  lemma InactiveInv(s: Tls)
    requires Inv(s)
    ensures Inv(Emit(s, Inactive))
  {
    hide LiveOk, DeadOk, PastLives, EventsOf;
    var s' := Emit(s, Inactive);
    SilentLives(s, s');
    forall id
      ensures EventsOf(s'.out, id) == Past(s', id) && Received(Past(s', id)) == HandedOver(s', id)
    {
      EventsOfSnoc(s.out, Inactive, id);
    }
  }

  // ---------------------------------------------------------------------------
  // Handling one token
  // ---------------------------------------------------------------------------

  lemma PhaseInv(s: Tls, s': Tls, id: nat, es: seq<TransportEvent>)
    requires Inv(s) && id in s.connections && Tells(s, s', id, es) && Changes(s, s', id) && IdOk(s', id)
    ensures Inv(s')
  {
    hide RegistryOk, OutputOk, IdOk;
    assert RegistryOk(s') by {
      hide LivesOk;
      if id in s'.connections {
        RegistryAfterPut(s, s', id);
      } else {
        RegistryAfterDrop(s, s', id);
      }
    }
    OutputTold(s, s', id, es) by { hide LivesOk; }
    LivesFrame(s, s', id);
  }

  /** Data, then Connected: what the read that completes the handshake reports. */
  lemma OpeningWord(id: nat, data: bytes)
    ensures OpenWord(id, if data == [] then [Connected(id)] else [Data(id, data), Connected(id)])
  {
    assert OpensAt(id, [Connected(id)], 0);
    assert OpensAt(id, [Data(id, [0]), Connected(id)], 1);
  }

  lemma WordGrows(id: nat, es: seq<TransportEvent>, data: bytes)
    requires OpenWord(id, es)
    ensures data != [] ==> OpenWord(id, es + [Data(id, data)])
    ensures LifetimeWord(id, es + [Disconnected(id)])
    ensures es + [Disconnected(id)] != [ConnectionFailed(id)] && es + [Disconnected(id)] != []
  {
    assert (es + [Disconnected(id)])[..|es|] == es;
    assert (es + [Disconnected(id)])[|es|] == Disconnected(id);
  }

  function DataEvents(id: nat, data: bytes): seq<TransportEvent> {
    if data == [] then [] else [Data(id, data)]
  }

  lemma WordLeaves(id: nat, es: seq<TransportEvent>, data: bytes)
    requires OpenWord(id, es)
    ensures var all := es + (DataEvents(id, data) + [Disconnected(id)]);
            LifetimeWord(id, all) && all != [] && all != [ConnectionFailed(id)]
  {
    WordGrows(id, es, data);
    assert es + [] == es;
    WordGrows(id, es + DataEvents(id, data), []);
    assert es + (DataEvents(id, data) + [Disconnected(id)]) == es + DataEvents(id, data) + [Disconnected(id)];
  }

  function ReadLeft(s: Tls, id: nat, data: bytes): Tls {
    Emit(EmitData(RecordReceived(Drop(s, id), id, data), id, data), Disconnected(id))
  }

  /** The data of a reading, whatever else is told with it. */
  lemma ReceivedOf(id: nat, data: bytes)
    ensures Received(DataEvents(id, data) + []) == data
    ensures Received(DataEvents(id, data) + [Disconnected(id)]) == data
    ensures Received(DataEvents(id, data) + [Connected(id)]) == data
    ensures Received([Connected(id)]) == [] && Received([Disconnected(id)]) == [] && Received([ConnectionFailed(id)]) == []
  {
    ReceivedSnoc([], Data(id, data));
    assert [] + [Data(id, data)] == [Data(id, data)] && [] + data == data;
    assert DataEvents(id, data) + [] == DataEvents(id, data);
    ReceivedSnoc(DataEvents(id, data), Disconnected(id));
    ReceivedSnoc(DataEvents(id, data), Connected(id));
    ReceivedSnoc([], Connected(id));
    ReceivedSnoc([], Disconnected(id));
    ReceivedSnoc([], ConnectionFailed(id));
    assert [] + [Connected(id)] == [Connected(id)] && [] + [Disconnected(id)] == [Disconnected(id)];
    assert [] + [ConnectionFailed(id)] == [ConnectionFailed(id)];
  }

  /** The state after something was told of `id`, and plaintext handed over and taken. */
  function Noted(s: Tls, id: nat, news: seq<TransportEvent>, received: bytes, taken: bytes): Tls
    requires id in s.hist
  {
    var h := s.hist[id];
    s.(out := s.out + news,
       hist := s.hist[id := h.(events := h.events + news, received := h.received + received,
                               plaintext := h.plaintext + taken)])
  }

  lemma EmitDataIsNoted(s: Tls, id: nat, data: bytes)
    requires id in s.hist
    ensures EmitData(RecordReceived(s, id, data), id, data) == Noted(s, id, DataEvents(id, data), data, [])
  {
    var h := s.hist[id];
    assert h.plaintext + [] == h.plaintext;
    var h1 := h.(received := h.received + data);
    assert h1.events + [] == h1.events && s.out + [] == s.out;
    assert s.hist[id := h1][id := h1.(events := h1.events + [Data(id, data)])]
           == s.hist[id := h1.(events := h1.events + [Data(id, data)])];
  }

  lemma EmitAfterNoted(s: Tls, id: nat, news: seq<TransportEvent>, received: bytes, taken: bytes, e: TransportEvent)
    requires id in s.hist && About(e, id)
    ensures Emit(Noted(s, id, news, received, taken), e) == Noted(s, id, news + [e], received, taken)
  {
    var h := s.hist[id];
    var h1 := Noted(s, id, news, received, taken).hist[id];
    assert h.events + news + [e] == h.events + (news + [e]);
    assert s.out + news + [e] == s.out + (news + [e]);
    assert s.hist[id := h1][id := h1.(events := h1.events + [e])] == s.hist[id := h1.(events := h1.events + [e])];
  }

  lemma RecordTakenIsNoted(s: Tls, id: nat, taken: bytes)
    requires id in s.hist
    ensures RecordTaken(s, id, taken) == Noted(s, id, [], [], taken)
    ensures Noted(s, id, [], [], []) == s
  {
    var h := s.hist[id];
    assert h.events + [] == h.events && h.received + [] == h.received && s.out + [] == s.out;
    assert h.plaintext + [] == h.plaintext && s.hist[id := h] == s.hist;
  }

  /** A note, with a change of the connection, tells just its news. */
  lemma NotedTells(s: Tls, s1: Tls, id: nat, news: seq<TransportEvent>, received: bytes, taken: bytes)
    requires id in s.hist && s1.hist == s.hist && s1.out == s.out
    requires s1.listeners == s.listeners && s1.nextId == s.nextId
    requires received == Received(news) && forall e :: e in news ==> About(e, id)
    ensures var (h, s') := (s.hist[id], Noted(s1, id, news, received, taken));
            && Tells(s, s', id, news)
            && s'.hist[id] == h.(events := h.events + news, received := h.received + received,
                                 plaintext := h.plaintext + taken)
  {
    hide Received;
  }

  lemma ReadLeavesTells(s: Tls, id: nat, data: bytes)
    requires id in s.connections && id in s.hist
    ensures var es := DataEvents(id, data) + [Disconnected(id)];
            && Tells(s, ReadLeft(s, id, data), id, es) && Changes(s, ReadLeft(s, id, data), id)
            && id !in ReadLeft(s, id, data).connections && id in ReadLeft(s, id, data).hist
            && ReadLeft(s, id, data).hist[id]
               == s.hist[id].(events := s.hist[id].events + es, received := s.hist[id].received + data)
  {
    var es := DataEvents(id, data) + [Disconnected(id)];
    EmitDataIsNoted(Drop(s, id), id, data);
    EmitAfterNoted(Drop(s, id), id, DataEvents(id, data), data, [], Disconnected(id));
    ReceivedOf(id, data);
    hide Received, EmitData, Emit, RecordReceived;
    NotedTells(s, Drop(s, id), id, es, data, []);
    assert s.hist[id].plaintext + [] == s.hist[id].plaintext;
    hide Tells, DataEvents;
  }

  lemma ReadLeavesInv(s: Tls, id: nat, data: bytes)
    requires Inv(s) && id in s.connections && s.connections[id].status.TlsConnected?
    ensures Inv(ReadLeft(s, id, data))
  {
    var s' := ReadLeft(s, id, data);
    hide RegistryOk, PastLives, LifetimeWord, OpenWord, OutputOk, ReadLeft, DataEvents, Tells, Changes;
    assert IdOk(s, id);
    ReadLeavesTells(s, id, data);
    WordLeaves(id, s.hist[id].events, data);
    assert s.hist[id].plaintext <= Flatten(s.hist[id].queued);
    hide LivesOk;
    assert IdOk(s', id);
    hide IdOk;
    PhaseInv(s, s', id, DataEvents(id, data) + [Disconnected(id)]);
  }

  /** What a settled connection has been told of. */
  function ReadTells(id: nat, c: Connection, c': Connection, data: bytes): seq<TransportEvent> {
    DataEvents(id, data) + (if c'.status != c.status then [Connected(id)] else [])
  }

  /** A surviving reading as a note. */
  lemma ReadStaysNoted(s: Tls, ev: PollEvent)
    requires ev.token in s.connections && ev.token in s.hist && ev.readable && ReadPhase(s, ev).Stays?
    ensures var (id, c) := (ev.token, s.connections[ev.token]);
            var c' := Settle(c, ev.handshakingAfterRead, ev.wantsWriteAfterRead);
            var io := ReadSummary(ev.readScript, s.maxRead);
            && !c.status.NotConnected? && (c.status.TcpConnected? && ev.handshakingAfterRead ==> io.data == [])
            && ReadPhase(s, ev).s
               == Noted(Put(s, id, c').(spurious := if io.progress then 0 else s.spurious + 1), id,
                        ReadTells(id, c, c', io.data), io.data, [])
  {
    var (id, c, io) := (ev.token, s.connections[ev.token], ReadSummary(ev.readScript, s.maxRead));
    var c' := Settle(c, ev.handshakingAfterRead, ev.wantsWriteAfterRead);
    ReadIsGiven(ev.readScript, s.maxRead);
    var s1 := Put(s, id, c').(spurious := if io.progress then 0 else s.spurious + 1);
    EmitDataIsNoted(s1, id, io.data);
    EmitAfterNoted(s1, id, DataEvents(id, io.data), io.data, [], Connected(id));
    assert DataEvents(id, io.data) + [] == DataEvents(id, io.data);
    hide ReadSummary, Settle, Given, Ended, ReadMoves, EmitData, Emit, RecordReceived, Noted, DataEvents;
  }

  lemma ReadStaysTells(s: Tls, ev: PollEvent)
    requires ev.token in s.connections && ev.token in s.hist && ev.readable && ReadPhase(s, ev).Stays?
    ensures var (id, c) := (ev.token, s.connections[ev.token]);
            var c' := Settle(c, ev.handshakingAfterRead, ev.wantsWriteAfterRead);
            var data := ReadSummary(ev.readScript, s.maxRead).data;
            var s' := ReadPhase(s, ev).s;
            && !c.status.NotConnected?
            && (c.status.TcpConnected? && ev.handshakingAfterRead ==> data == [])
            && id in s'.connections && s'.connections[id] == c' && Changes(s, s', id)
            && Tells(s, s', id, ReadTells(id, c, c', data))
            && s'.hist[id]
               == s.hist[id].(events := s.hist[id].events + ReadTells(id, c, c', data),
                              received := s.hist[id].received + data)
  {
    var (id, c, io) := (ev.token, s.connections[ev.token], ReadSummary(ev.readScript, s.maxRead));
    var c' := Settle(c, ev.handshakingAfterRead, ev.wantsWriteAfterRead);
    ReadStaysNoted(s, ev);
    hide ReadPhase, ReadSummary, Settle;
    ReceivedOf(id, io.data);
    var s1 := Put(s, id, c').(spurious := if io.progress then 0 else s.spurious + 1);
    NotedTells(s, s1, id, ReadTells(id, c, c', io.data), io.data, []);
    assert s.hist[id].plaintext + [] == s.hist[id].plaintext;
    hide Received, Tells, ReadTells;
  }

  /** Both loops settle a surviving connection in a state that keeps the invariant. */
  lemma SettledOk(id: nat, c: Connection, h: History, handshaking: bool, wantsWrite: bool,
                  events: seq<TransportEvent>)
    requires LiveOk(id, c, h) && !c.status.NotConnected?
    requires var c' := Settle(c, handshaking, wantsWrite);
             if c'.status.TlsConnected? then OpenWord(id, events) else events == []
    ensures LiveOk(id, Settle(c, handshaking, wantsWrite), h.(events := events))
  {
    hide OpenWord;
  }

  lemma ReadWord(id: nat, c: Connection, h: History, handshaking: bool, wantsWrite: bool, data: bytes)
    requires LiveOk(id, c, h) && !c.status.NotConnected?
    requires c.status.TcpConnected? && handshaking ==> data == []
    ensures var c' := Settle(c, handshaking, wantsWrite);
            var events := h.events + ReadTells(id, c, c', data);
            if c'.status.TlsConnected? then OpenWord(id, events) else events == []
  {
    hide OpenWord;
    if c.status.TlsConnected? {
      WordGrows(id, h.events, data);
      assert h.events + [] == h.events;
      assert [Data(id, data)] + [] == [Data(id, data)];
    } else {
      OpeningWord(id, data);
      assert h.events + (DataEvents(id, data) + []) == DataEvents(id, data);
      assert h.events + (DataEvents(id, data) + [Connected(id)]) == DataEvents(id, data) + [Connected(id)];
      assert [] + [Connected(id)] == [Connected(id)];
      assert [Data(id, data)] + [Connected(id)] == [Data(id, data), Connected(id)];
    }
  }

  lemma ReadStaysInv(s: Tls, ev: PollEvent)
    requires Inv(s) && ev.token in s.connections && ev.readable && ReadPhase(s, ev).Stays?
    ensures Inv(ReadPhase(s, ev).s)
  {
    var (id, c) := (ev.token, s.connections[ev.token]);
    var data := ReadSummary(ev.readScript, s.maxRead).data;
    var c' := Settle(c, ev.handshakingAfterRead, ev.wantsWriteAfterRead);
    var s' := ReadPhase(s, ev).s;
    hide RegistryOk, PastLives, LiveOk, DeadOk, OutputOk, Settle, ReadTells, ReadPhase;
    assert IdOk(s, id);
    ReadStaysTells(s, ev);
    ReadWord(id, c, s.hist[id], ev.handshakingAfterRead, ev.wantsWriteAfterRead, data);
    SettledOk(id, c, s.hist[id], ev.handshakingAfterRead, ev.wantsWriteAfterRead, s'.hist[id].events);
    assert IdOk(s', id);
    hide IdOk, LivesOk;
    PhaseInv(s, s', id, ReadTells(id, c, c', data));
  }

  lemma ReadPhaseInv(s: Tls, ev: PollEvent)
    requires Inv(s) && ev.token in s.connections && !ReadPhase(s, ev).Stops?
    ensures Inv(ReadPhase(s, ev).s)
  {
    ReadIsGiven(ev.readScript, s.maxRead);
    hide Inv, ReadSummary, Given, Ended, ReadMoves;
    if ReadPhase(s, ev).Leaves? {
      ReadLeavesInv(s, ev.token, ReadSummary(ev.readScript, s.maxRead).data);
    } else if ReadPhase(s, ev).Vanishes? {
      DropInv(s, ev.token);
    } else if ev.readable {
      ReadStaysInv(s, ev);
    }
  }

  // ---------------------------------------------------------------------------
  // Writing
  // ---------------------------------------------------------------------------

  /** The status the write loop runs with: a connecting socket without an error is connected now. */
  function WritingStatus(c: Connection): ConnectionStatus {
    if c.status.NotConnected? then TcpConnected else c.status
  }

  function WriteTaken(s: Tls, ev: PollEvent): WriteIo
    requires ev.token in s.connections
  {
    var c := s.connections[ev.token];
    WriteSummary(ev.writeScript, |c.sendBuf|, WritingStatus(c).TlsConnected?)
  }

  /** What the write loop leaves of the connection. */
  function WriteLeaves(s: Tls, ev: PollEvent): Connection
    requires ev.token in s.connections
  {
    var c := s.connections[ev.token];
    Settle(Connection(WritingStatus(c), c.interest, c.sendBuf[WriteTaken(s, ev).taken..]),
           ev.handshakingAfterWrite, ev.wantsWriteAfterWrite)
  }

  function WriteTells(s: Tls, ev: PollEvent): seq<TransportEvent>
    requires ev.token in s.connections
  {
    var (id, c) := (ev.token, s.connections[ev.token]);
    if c.status.NotConnected? && ev.socketError then [ConnectionFailed(id)]
    else if WriteTaken(s, ev).failed then
      [if WritingStatus(c).TcpConnected? then ConnectionFailed(id) else Disconnected(id)]
    else if WriteLeaves(s, ev).status != WritingStatus(c) then [Connected(id)]
    else []
  }

  lemma WriteStaysTells(s: Tls, ev: PollEvent)
    requires ev.token in s.connections && ev.token in s.hist && ev.writable && WritePhase(s, ev).Stays?
    ensures var (id, c, h) := (ev.token, s.connections[ev.token], s.hist[ev.token]);
            var taken := Taken(ev.writeScript, Offered(c));
            var s' := WritePhase(s, ev).s;
            && taken <= c.sendBuf && |taken| == WriteTaken(s, ev).taken
            && !(c.status.NotConnected? && ev.socketError) && !WriteTaken(s, ev).failed
            && id in s'.connections && s'.connections[id] == WriteLeaves(s, ev) && Changes(s, s', id)
            && Tells(s, s', id, WriteTells(s, ev))
            && s'.hist[id] == h.(events := h.events + WriteTells(s, ev), plaintext := h.plaintext + taken)
  {
    var id := ev.token;
    LoopTakesOffered(ev.writeScript, s.connections[id]);
    ReceivedOf(id, []);
    assert s.hist[id].received + [] == s.hist[id].received;
    hide WriteSummary, Settle, Taken, Broken, WriteMoves, Offered, Received;
    assert s.out + [] == s.out && s.hist[ev.token].events + [] == s.hist[ev.token].events;
  }

  lemma WriteEndsTells(s: Tls, ev: PollEvent)
    requires ev.token in s.connections && ev.token in s.hist && ev.writable && WritePhase(s, ev).Leaves?
    ensures var (id, c, h) := (ev.token, s.connections[ev.token], s.hist[ev.token]);
            var s' := WritePhase(s, ev).s;
            var refused := c.status.NotConnected? && ev.socketError;
            var taken := if refused then [] else Taken(ev.writeScript, Offered(c));
            && taken <= c.sendBuf && (refused || WriteTaken(s, ev).failed)
            && id !in s'.connections && Changes(s, s', id) && Tells(s, s', id, WriteTells(s, ev))
            && s'.hist[id] == h.(events := h.events + WriteTells(s, ev), plaintext := h.plaintext + taken)
            && (!c.status.TlsConnected? ==> taken == [])
  {
    var (id, h) := (ev.token, s.hist[ev.token]);
    LoopTakesOffered(ev.writeScript, s.connections[id]);
    ReceivedOf(id, []);
    assert h.received + [] == h.received && h.plaintext + [] == h.plaintext;
    assert !s.connections[id].status.TlsConnected? ==> Taken(ev.writeScript, Offered(s.connections[id])) == [];
    hide WriteSummary, Settle, Taken, Broken, WriteMoves, Offered, Received;
  }

  /** Taking bytes off the front of the pending ones moves them to the plaintext. */
  lemma TakenOk(id: nat, c: Connection, h: History, taken: nat, status: ConnectionStatus)
    requires LiveOk(id, c, h) && taken <= |c.sendBuf| && (!c.status.TlsConnected? ==> taken == 0)
    ensures var h' := h.(plaintext := h.plaintext + c.sendBuf[..taken]);
            && h'.plaintext <= Flatten(h'.queued)
            && h'.plaintext + c.sendBuf[taken..] == Flatten(h'.queued)
            && (!c.status.TlsConnected? ==> h'.plaintext == [])
  {
    assert c.sendBuf == c.sendBuf[..taken] + c.sendBuf[taken..];
  }

  lemma WrittenOk(id: nat, c: Connection, h: History, taken: nat, handshaking: bool, wantsWrite: bool)
    requires LiveOk(id, c, h) && taken <= |c.sendBuf| && (!c.status.TlsConnected? ==> taken == 0)
    ensures var c1 := Connection(WritingStatus(c), c.interest, c.sendBuf[taken..]);
            var c' := Settle(c1, handshaking, wantsWrite);
            LiveOk(id, c', h.(events := h.events + (if c'.status != c1.status then [Connected(id)] else []),
                              plaintext := h.plaintext + c.sendBuf[..taken]))
  {
    TakenOk(id, c, h, taken, WritingStatus(c));
    hide OpenWord;
    OpeningWord(id, []);
    assert h.events + [] == h.events;
    assert [] + [Connected(id)] == [Connected(id)];
  }

  lemma WriteStaysLive(s: Tls, ev: PollEvent)
    requires Inv(s) && ev.token in s.connections && ev.writable && WritePhase(s, ev).Stays?
    ensures ev.token in WritePhase(s, ev).s.hist && IdOk(WritePhase(s, ev).s, ev.token)
  {
    var (id, c) := (ev.token, s.connections[ev.token]);
    hide RegistryOk, PastLives, OutputOk, WritePhase, WriteSummary, LiveOk, DeadOk, Tells, Changes, Settle;
    assert IdOk(s, id);
    WriteStaysTells(s, ev);
    hide LivesOk;
    var taken := Taken(ev.writeScript, Offered(c));
    LoopTakesOffered(ev.writeScript, c);
    assert c.sendBuf[..|taken|] == taken;
    assert !c.status.TlsConnected? ==> |taken| == 0;
    hide Taken;
    WrittenOk(id, c, s.hist[id], |taken|, ev.handshakingAfterWrite, ev.wantsWriteAfterWrite);
  }

  lemma EndedOk(id: nat, c: Connection, h: History, taken: bytes, e: TransportEvent)
    requires LiveOk(id, c, h) && taken <= c.sendBuf && (!c.status.TlsConnected? ==> taken == [])
    requires e == if c.status.TlsConnected? then Disconnected(id) else ConnectionFailed(id)
    ensures DeadOk(id, h.(events := h.events + [e], plaintext := h.plaintext + taken))
  {
    assert c.sendBuf[..|taken|] == taken;
    TakenOk(id, c, h, |taken|, WritingStatus(c));
    hide OpenWord;
    if c.status.TlsConnected? {
      WordLeaves(id, h.events, []);
      assert [] + [Disconnected(id)] == [Disconnected(id)];
    } else {
      assert [] + [ConnectionFailed(id)] == [ConnectionFailed(id)];
    }
  }

  lemma WriteEndsDead(s: Tls, ev: PollEvent)
    requires Inv(s) && ev.token in s.connections && ev.writable && WritePhase(s, ev).Leaves?
    ensures ev.token in WritePhase(s, ev).s.hist && IdOk(WritePhase(s, ev).s, ev.token)
  {
    var (id, c) := (ev.token, s.connections[ev.token]);
    assert IdOk(s, id);
    hide RegistryOk, PastLives, OutputOk, LivesOk, WritePhase, WriteSummary, LiveOk, DeadOk, Taken, Changes;
    WriteEndsTells(s, ev);
    var taken := if c.status.NotConnected? && ev.socketError then [] else Taken(ev.writeScript, Offered(c));
    EndedOk(id, c, s.hist[id], taken, WriteTells(s, ev)[0]);
  }

  lemma WritePhaseInv(s: Tls, ev: PollEvent)
    requires Inv(s) && ev.token in s.connections && !WritePhase(s, ev).Stops?
    ensures Inv(WritePhase(s, ev).s)
  {
    if ev.writable {
      NeverVanishes(s, ev);
      assert ev.token in s.hist;
      hide Inv, WritePhase, IdOk;
      if WritePhase(s, ev).Stays? {
        WriteStaysTells(s, ev);
        WriteStaysLive(s, ev);
      } else {
        WriteEndsTells(s, ev);
        WriteEndsDead(s, ev);
      }
      PhaseInv(s, WritePhase(s, ev).s, ev.token, WriteTells(s, ev));
    }
  }

  lemma NeverVanishes(s: Tls, ev: PollEvent)
    requires ev.token in s.connections
    ensures !WritePhase(s, ev).Vanishes?
  {
    hide WriteSummary, Settle;
  }

  // ---------------------------------------------------------------------------
  // Batches and runs
  // ---------------------------------------------------------------------------

  /** Every token polled at the start of the batch is the waker, a listener, a live connection, in
      `disconnected_ids`, or vanished; and the vanished ones are none of the others. */
  predicate Accounted(s: Tls, disconnected: set<nat>, vanished: set<nat>, tokens: set<nat>) {
    && tokens <= {WAKE_ID} + s.listeners + s.connections.Keys + disconnected + vanished
    && vanished !! ({WAKE_ID} + s.listeners + s.connections.Keys + disconnected)
  }

  /** A handshake that fails on the read side removes the connection without an event. */
  predicate FailsHandshake(s: Tls, ev: PollEvent) {
    && ev.token in s.connections && ev.readable && s.connections[ev.token].status.TcpConnected?
    && Ended(ev.readScript, s.maxRead) && Given(ev.readScript, s.maxRead) == []
  }

  lemma ReadPhaseKeys(s: Tls, ev: PollEvent)
    requires ev.token in s.connections
    ensures var r := ReadPhase(s, ev);
            && r != Stops(MissingConnection)
            && (!r.Stops? ==> r.s.listeners == s.listeners)
            && (r.Stays? ==> r.s.connections.Keys == s.connections.Keys)
            && (r.Leaves? || r.Vanishes? ==> r.s.connections == s.connections - {ev.token})
            && (r.Vanishes? <==> FailsHandshake(s, ev))
  {
    ReadIsGiven(ev.readScript, s.maxRead);
    hide ReadSummary, Settle, Given, Ended, ReadMoves;
  }

  lemma WritePhaseKeys(s: Tls, ev: PollEvent)
    requires ev.token in s.connections
    ensures var w := WritePhase(s, ev);
            && w != Stops(MissingConnection) && !w.Vanishes?
            && (!w.Stops? ==> w.s.listeners == s.listeners)
            && (w.Stays? ==> w.s.connections.Keys == s.connections.Keys)
            && (w.Leaves? ==> w.s.connections == s.connections - {ev.token})
  {
    hide WriteSummary, Settle;
  }

  lemma AcceptPhaseInv(s: Tls, script: seq<AcceptResult>)
    requires Inv(s) && AcceptPhase(s, script).Running?
    ensures var s' := AcceptPhase(s, script).s;
            Inv(s') && s'.listeners == s.listeners && s.connections.Keys <= s'.connections.Keys
  {
    hide Inv, AcceptMany, AcceptSummary;
    var n := AcceptSummary(script).value;
    AcceptManyInv(s, n);
    TrackInv(AcceptMany(s, n), n == 0);
  }

  lemma TrackInv(s: Tls, isSpurious: bool)
    requires Inv(s) && Track(s, isSpurious).Running?
    ensures Inv(Track(s, isSpurious).s)
  {
    hide LiveOk, DeadOk, PastLives, EventsOf;
    SilentLives(s, Track(s, isSpurious).s);
  }

  /** The cleanup assertion, and the `expect` of the write side, fail exactly for a vanished connection. */
  lemma CleanupFailsIff(s: Tls, disconnected: set<nat>, vanished: set<nat>, ev: PollEvent, tokens: set<nat>)
    requires RegistryOk(s) && Accounted(s, disconnected, vanished, tokens) && ev.token in tokens
    ensures HandleToken(s, disconnected, vanished, ev) == Stopped(MissingConnection)
            <==> ev.token in vanished
                 || (ev.token !in disconnected && ev.writable && FailsHandshake(s, ev))
  {
    hide ReadPhase, WritePhase, AcceptPhase, FailsHandshake;
    AcceptHalts(s, ev.acceptScript);
    if ev.token in s.connections {
      ReadPhaseKeys(s, ev);
      if ReadPhase(s, ev).Stays? {
        WritePhaseKeys(ReadPhase(s, ev).s, ev);
      }
    } else {
      NoConnectionNoHandshake(s, ev);
    }
  }

  lemma AcceptHalts(s: Tls, script: seq<AcceptResult>)
    ensures AcceptPhase(s, script) != Halted(MissingConnection)
  {
    hide AcceptMany, AcceptSummary;
  }

  lemma NoConnectionNoHandshake(s: Tls, ev: PollEvent)
    requires ev.token !in s.connections
    ensures !FailsHandshake(s, ev)
  {
  }

  /** The state after a polled connection has been handled. */
  lemma HandledConnection(s: Tls, disconnected: set<nat>, vanished: set<nat>, ev: PollEvent)
    requires Inv(s) && ev.token in s.connections && ev.token !in s.listeners && ev.token != WAKE_ID
    requires ev.token !in disconnected && HandleToken(s, disconnected, vanished, ev).Next?
    ensures var n := HandleToken(s, disconnected, vanished, ev);
            && Inv(n.s) && n.s.listeners == s.listeners
            && (|| (n.s.connections.Keys == s.connections.Keys && (n.disconnected, n.vanished) == (disconnected, vanished))
                || (&& n.s.connections.Keys == s.connections.Keys - {ev.token}
                    && (|| (n.disconnected, n.vanished) == (disconnected + {ev.token}, vanished)
                        || (n.disconnected, n.vanished) == (disconnected, vanished + {ev.token}))))
  {
    hide Inv, ReadPhase, WritePhase, FailsHandshake;
    ReadPhaseKeys(s, ev);
    ReadPhaseInv(s, ev);
    if ReadPhase(s, ev).Stays? {
      WritePhaseKeys(ReadPhase(s, ev).s, ev);
      WritePhaseInv(ReadPhase(s, ev).s, ev);
    }
  }

  lemma HandleTokenInv(s: Tls, disconnected: set<nat>, vanished: set<nat>, ev: PollEvent, tokens: set<nat>)
    requires Inv(s) && Accounted(s, disconnected, vanished, tokens)
    requires HandleToken(s, disconnected, vanished, ev).Next?
    ensures var n := HandleToken(s, disconnected, vanished, ev);
            Inv(n.s) && Accounted(n.s, n.disconnected, n.vanished, tokens)
  {
    var id := ev.token;
    hide Inv, ReadPhase, WritePhase, AcceptPhase;
    InvIds(s);
    if id in s.connections && id !in disconnected {
      HandledConnection(s, disconnected, vanished, ev);
      hide HandleToken;
    } else if id in s.listeners {
      AcceptPhaseInv(s, ev.acceptScript);
      InvIds(AcceptPhase(s, ev.acceptScript).s);
    }
  }

  lemma InvIds(s: Tls)
    requires Inv(s)
    ensures s.connections.Keys !! s.listeners && WAKE_ID !in s.connections && WAKE_ID !in s.listeners
  {
  }

  lemma {:induction false} HandleBatchInv(s: Tls, events: seq<PollEvent>)
    requires Inv(s) && HandleBatch(s, events).Next?
    ensures var n := HandleBatch(s, events);
            Inv(n.s) && Accounted(n.s, n.disconnected, n.vanished, s.registered.Keys)
  {
    hide HandleToken;
    if events == [] {
      hide LivesOk, OutputOk;
    } else {
      var init := events[..|events| - 1];
      HandleBatchInv(s, init);
      var n := HandleBatch(s, init);
      hide Inv;
      HandleTokenInv(n.s, n.disconnected, n.vanished, events[|events| - 1], s.registered.Keys);
    }
  }

  lemma StepInv(s: Tls, op: Op)
    requires Inv(s) && Step(s, op).Running?
    ensures Inv(Step(s, op).s)
  {
    hide Inv, HandleBatch, Polled, QueueData, AddConnection, AddListener;
    match op {
      case Connect(ok) => if ok { AddConnectionInv(s, true); }
      case Listen(ok) => if ok { ListenInv(s); }
      case Queue(id, data) => QueueDataInv(s, id, data);
      case Close(id) => if id in s.connections { DropInv(s, id); }
      case Poll(batch) =>
        InactiveInv(s);
        if s.connections != map[] || s.listeners != {} {
          HandleBatchInv(s, Polled(batch, s.registered.Keys));
        }
    }
  }

  lemma {:induction false} ExecInv(s: Tls, ops: seq<Op>)
    requires Inv(s) && Exec(s, ops).Running?
    ensures Inv(Exec(s, ops).s)
  {
    hide Inv, Step;
    if ops != [] {
      ExecInv(s, ops[..|ops| - 1]);
      StepInv(Exec(s, ops[..|ops| - 1]).s, ops[|ops| - 1]);
    }
  }
}
