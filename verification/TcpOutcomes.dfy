/** What one polled token means: the events told, the connection's fate, the assertions hit and what is left
    untouched, all in terms of what the sockets took, gave and ended. */
module TcpOutcomes {
  import opened Bytes
  import opened TransportTypes
  import opened Ids
  import opened TcpModel
  import opened TcpSockets
  import opened TcpProofs

  // ---------------------------------------------------------------------------
  // The read side and the write side of one connection
  // ---------------------------------------------------------------------------

  /** The state after something was told of `id`, received and written on it. */
  function Noted(s: Tcp, id: nat, news: seq<TransportEvent>, received: bytes, written: bytes): Tcp
    requires id in s.hist
  {
    var h := s.hist[id];
    s.(out := s.out + news,
       hist := s.hist[id := h.(events := h.events + news, received := h.received + received,
                               written := h.written + written)])
  }

  /** Bytes handed over are told as Data, and an ended socket as Disconnected. */
  function ReadNews(id: nat, given: bytes, ended: bool): seq<TransportEvent> {
    (if given == [] then [] else [Data(id, given)]) + (if ended then [Disconnected(id)] else [])
  }

  lemma EmitIsNoted(s: Tcp, id: nat, data: bytes)
    requires id in s.hist
    ensures EmitData(RecordReceived(s, id, data), id, data) == Noted(s, id, ReadNews(id, data, false), data, [])
  {
    var h := s.hist[id];
    assert h.written + [] == h.written;
    assert ReadNews(id, data, false) == if data == [] then [] else [Data(id, data)];
    var h1 := h.(received := h.received + data);
    assert h1.events + [] == h1.events && s.out + [] == s.out;
    assert s.hist[id := h1][id := h1.(events := h1.events + [Data(id, data)])]
           == s.hist[id := h1.(events := h1.events + [Data(id, data)])];
  }

  lemma EmitAfterNoted(s: Tcp, id: nat, news: seq<TransportEvent>, received: bytes, e: TransportEvent)
    requires id in s.hist && About(e, id)
    ensures Emit(Noted(s, id, news, received, []), e) == Noted(s, id, news + [e], received, [])
  {
    var h := s.hist[id];
    var h1 := Noted(s, id, news, received, []).hist[id];
    assert h.events + news + [e] == h.events + (news + [e]);
    assert s.out + news + [e] == s.out + (news + [e]);
    assert s.hist[id := h1][id := h1.(events := h1.events + [e])] == s.hist[id := h1.(events := h1.events + [e])];
  }

  /** Reading: all bytes handed over are told, then the end if the socket has ended, which takes the connection
      away; a reading without bytes and without an end is the spurious wakeup. */
  lemma ReadTells(s: Tcp, ev: PollEvent)
    requires ev.token in s.connections && ev.token in s.hist && ev.readable
    ensures var (id, given, ended) := (ev.token, Given(ev.readScript, s.maxRead), Ended(ev.readScript, s.maxRead));
            ReadPhase(s, ev)
            == if !s.connections[id].connected then Stops(ReadBeforeConnected)
               else if ended then Leaves(Noted(Drop(s, id), id, ReadNews(id, given, true), given, []))
               else if given == [] && s.spurious >= MAX_SPURIOUS_WAKEUPS then Stops(TooManySpurious)
               else
                 Stays(Noted(s.(spurious := if given == [] then s.spurious + 1 else 0), id,
                             ReadNews(id, given, false), given, []))
  {
    var (id, given, ended) := (ev.token, Given(ev.readScript, s.maxRead), Ended(ev.readScript, s.maxRead));
    ReadIsGiven(ev.readScript, s.maxRead);
    hide ReadSummary, Given, Ended, EmitData, RecordReceived;
    if s.connections[id].connected {
      if ended {
        EmitIsNoted(Drop(s, id), id, given);
        EmitAfterNoted(Drop(s, id), id, ReadNews(id, given, false), given, Disconnected(id));
        assert ReadNews(id, given, false) + [Disconnected(id)] == ReadNews(id, given, true);
      } else if Track(s, given == []).Running? {
        EmitIsNoted(Track(s, given == []).s, id, given);
      }
    }
  }

  lemma WrittenIsNoted(s: Tcp, id: nat, written: bytes, news: seq<TransportEvent>)
    requires id in s.hist && |news| <= 1 && forall e :: e in news ==> About(e, id)
    ensures var s1 := RecordWritten(s, id, written);
            (if news == [] then s1 else Emit(s1, news[0])) == Noted(s, id, news, [], written)
  {
    var h := s.hist[id];
    assert h.received + [] == h.received;
    var h1 := h.(written := h.written + written);
    if news == [] {
      assert h.events + news == h.events && s.out + news == s.out;
      assert Noted(s, id, news, [], written).hist == s.hist[id := h1];
    } else {
      assert news == [news[0]] && news[0] in news;
      assert s.hist[id := h1][id := h1.(events := h1.events + news)] == s.hist[id := h1.(events := h1.events + news)];
    }
  }

  lemma NotedNothing(s: Tcp, id: nat, news: seq<TransportEvent>)
    requires id in s.hist && |news| == 1 && About(news[0], id)
    ensures Emit(s, news[0]) == Noted(s, id, news, [], [])
  {
    var h := s.hist[id];
    assert h.received + [] == h.received && h.written + [] == h.written && news == [news[0]];
  }

  /** Writing: a refused connection is told as ConnectionFailed and a broken one as Disconnected, and both are
      gone; otherwise exactly what the socket took leaves the buffer, and a connection that was connecting is told
      as Connected. Taking nothing from an established connection is the spurious wakeup. */
  lemma WriteTells(s: Tcp, ev: PollEvent)
    requires ev.token in s.connections && ev.token in s.hist && ev.writable
    ensures var (id, c) := (ev.token, s.connections[ev.token]);
            var taken := Taken(ev.writeScript, c.sendBuf);
            && taken <= c.sendBuf
            && WritePhase(s, ev)
               == if !c.connected && ev.socketError then
                    Leaves(Noted(Drop(s, id), id, [ConnectionFailed(id)], [], []))
                  else if Broken(ev.writeScript, c.sendBuf) then
                    Leaves(Noted(Drop(s, id), id, [Disconnected(id)], [], taken))
                  else if !c.connected then
                    Stays(Noted(Put(s, id, Rest(c, taken)), id, [Connected(id)], [], taken))
                  else if taken == [] && s.spurious >= MAX_SPURIOUS_WAKEUPS then Stops(TooManySpurious)
                  else
                    Stays(Noted(Put(s, id, Rest(c, taken)).(spurious := if taken == [] then s.spurious + 1 else 0), id,
                                [], [], taken))
  {
    var (id, c) := (ev.token, s.connections[ev.token]);
    var taken := Taken(ev.writeScript, c.sendBuf);
    SentIsTaken(ev.writeScript, c.sendBuf);
    hide WriteSummary, Taken, Broken, Emit, RecordWritten, Noted;
    WriteStates(s, id, ev.socketError, ev.writeScript);
    if !c.connected && ev.socketError {
      NotedNothing(Drop(s, id), id, [ConnectionFailed(id)]);
    } else if Broken(ev.writeScript, c.sendBuf) {
      WrittenIsNoted(Drop(s, id), id, taken, [Disconnected(id)]);
    } else if !c.connected {
      WrittenIsNoted(Put(s, id, Rest(c, taken)), id, taken, [Connected(id)]);
    } else {
      WrittenIsNoted(Put(s, id, Rest(c, taken)).(spurious := if taken == [] then s.spurious + 1 else 0), id, taken, []);
    }
  }

  // ---------------------------------------------------------------------------
  // A polled connection
  // ---------------------------------------------------------------------------

  /** Reading meets the end of the stream or an error. */
  predicate EndsReading(s: Tcp, ev: PollEvent) {
    ev.readable && Ended(ev.readScript, s.maxRead)
  }

  /** The writable half is reached. */
  predicate Writes(s: Tcp, ev: PollEvent) {
    ev.writable && !EndsReading(s, ev)
  }

  predicate Refused(s: Tcp, ev: PollEvent)
    requires ev.token in s.connections
  {
    Writes(s, ev) && !s.connections[ev.token].connected && ev.socketError
  }

  predicate Breaks(s: Tcp, ev: PollEvent)
    requires ev.token in s.connections
  {
    Writes(s, ev) && !Refused(s, ev) && Broken(ev.writeScript, s.connections[ev.token].sendBuf)
  }

  predicate Survives(s: Tcp, ev: PollEvent)
    requires ev.token in s.connections
  {
    !EndsReading(s, ev) && !Refused(s, ev) && !Breaks(s, ev)
  }

  function GivenNow(s: Tcp, ev: PollEvent): bytes {
    if ev.readable then Given(ev.readScript, s.maxRead) else []
  }

  function TakenNow(s: Tcp, ev: PollEvent): bytes
    requires ev.token in s.connections
  {
    if Writes(s, ev) && !Refused(s, ev) then Taken(ev.writeScript, s.connections[ev.token].sendBuf) else []
  }

  /** What the application hears of it. */
  function News(s: Tcp, ev: PollEvent): seq<TransportEvent>
    requires ev.token in s.connections
  {
    ReadNews(ev.token, GivenNow(s, ev), EndsReading(s, ev))
    + if Refused(s, ev) then [ConnectionFailed(ev.token)]
      else if Breaks(s, ev) then [Disconnected(ev.token)]
      else if Writes(s, ev) && !s.connections[ev.token].connected then [Connected(ev.token)]
      else []
  }

  function SpuriousAfterRead(s: Tcp, ev: PollEvent): nat {
    if !ev.readable || EndsReading(s, ev) then s.spurious
    else if GivenNow(s, ev) == [] then s.spurious + 1
    else 0
  }

  function SpuriousAfterWrite(s: Tcp, ev: PollEvent): nat
    requires ev.token in s.connections
  {
    if !Writes(s, ev) || !Survives(s, ev) || !s.connections[ev.token].connected then SpuriousAfterRead(s, ev)
    else if TakenNow(s, ev) == [] then SpuriousAfterRead(s, ev) + 1
    else 0
  }

  /** Which assertion the event runs into, if any. */
  function Tripped(s: Tcp, ev: PollEvent): Option<Halt>
    requires ev.token in s.connections
  {
    if !ev.readable && !ev.writable then Some(NoReadiness)
    else if ev.readable && !s.connections[ev.token].connected then Some(ReadBeforeConnected)
    else if SpuriousAfterRead(s, ev) > s.spurious >= MAX_SPURIOUS_WAKEUPS then Some(TooManySpurious)
    else if SpuriousAfterWrite(s, ev) > SpuriousAfterRead(s, ev) >= MAX_SPURIOUS_WAKEUPS then Some(TooManySpurious)
    else None
  }

  /** The state between the two halves. */
  function AfterRead(s: Tcp, ev: PollEvent): Tcp
    requires ev.token in s.hist
  {
    Noted(s.(spurious := SpuriousAfterRead(s, ev)), ev.token, ReadNews(ev.token, GivenNow(s, ev), false),
          GivenNow(s, ev), [])
  }

  lemma NothingNoted(s: Tcp, id: nat)
    requires id in s.hist
    ensures Noted(s, id, [], [], []) == s
  {
    var h := s.hist[id];
    assert h.events + [] == h.events && h.received + [] == h.received && h.written + [] == h.written;
    assert s.out + [] == s.out && s.hist[id := h] == s.hist;
  }

  lemma ReadHalf(s: Tcp, ev: PollEvent)
    requires ev.token in s.connections && ev.token in s.hist
    ensures ReadPhase(s, ev)
            == if ev.readable && !s.connections[ev.token].connected then Stops(ReadBeforeConnected)
               else if EndsReading(s, ev) then
                 Leaves(Noted(Drop(s, ev.token), ev.token, ReadNews(ev.token, GivenNow(s, ev), true), GivenNow(s, ev), []))
               else if SpuriousAfterRead(s, ev) > s.spurious >= MAX_SPURIOUS_WAKEUPS then Stops(TooManySpurious)
               else Stays(AfterRead(s, ev))
  {
    hide Given, Ended, Noted;
    if ev.readable {
      ReadTells(s, ev);
      hide ReadPhase;
    } else {
      NothingNoted(s, ev.token);
      assert ReadNews(ev.token, [], false) == [];
    }
  }

  /** Two notes make one, also around a change of the connection. */
  lemma NotedTwice(s: Tcp, id: nat, k: nat, a: seq<TransportEvent>, given: bytes, b: seq<TransportEvent>, taken: bytes)
    requires id in s.hist
    ensures var s1 := Noted(s.(spurious := k), id, a, given, []);
            && id in s1.hist && s1.connections == s.connections
            && Noted(Drop(s1, id), id, b, [], taken) == Noted(Drop(s, id), id, a + b, given, taken).(spurious := k)
            && (forall c, n: nat :: Noted(Put(s1, id, c).(spurious := n), id, b, [], taken)
                               == Noted(Put(s, id, c), id, a + b, given, taken).(spurious := n))
            && Noted(s1, id, b, [], taken) == Noted(s, id, a + b, given, taken).(spurious := k)
  {
    var h := s.hist[id];
    var h1 := Noted(s.(spurious := k), id, a, given, []).hist[id];
    var h2 := h.(events := h.events + (a + b), received := h.received + given, written := h.written + taken);
    assert h.written + [] == h.written && h1.received + [] == h1.received;
    assert h.events + a + b == h.events + (a + b) && s.out + a + b == s.out + (a + b);
    assert s.hist[id := h1][id := h2] == s.hist[id := h2];
  }

  lemma SpuriousOutside(s: Tcp, id: nat, k: nat, news: seq<TransportEvent>, given: bytes)
    requires id in s.hist
    ensures Noted(s.(spurious := k), id, news, given, []) == Noted(s, id, news, given, []).(spurious := k)
    ensures Noted(Drop(s, id), id, news, given, []) == Noted(Drop(s, id), id, news, given, []).(spurious := s.spurious)
  {
  }

  lemma WriteHalf(s: Tcp, ev: PollEvent)
    requires ev.token in s.connections && ev.token in s.hist && !EndsReading(s, ev)
    requires ev.writable
    ensures TakenNow(s, ev) <= s.connections[ev.token].sendBuf
    ensures var (id, c) := (ev.token, s.connections[ev.token]);
            var k := SpuriousAfterRead(s, ev);
            WritePhase(AfterRead(s, ev), ev)
            == if !Survives(s, ev) then
                 Leaves(Noted(Drop(s, id), id, News(s, ev), GivenNow(s, ev), TakenNow(s, ev)).(spurious := k))
               else if SpuriousAfterWrite(s, ev) > k >= MAX_SPURIOUS_WAKEUPS then Stops(TooManySpurious)
               else
                 Stays(Noted(Put(s, id, Rest(c, TakenNow(s, ev))), id, News(s, ev), GivenNow(s, ev), TakenNow(s, ev))
                         .(spurious := SpuriousAfterWrite(s, ev)))
  {
    var (id, c, k) := (ev.token, s.connections[ev.token], SpuriousAfterRead(s, ev));
    var (a, given, taken) := (ReadNews(id, GivenNow(s, ev), false), GivenNow(s, ev), Taken(ev.writeScript, c.sendBuf));
    var s1 := AfterRead(s, ev);
    assert s1.connections == s.connections && s1.spurious == k;
    WriteTells(s1, ev);
    hide WritePhase, Given, Taken, Broken, Ended, Noted, Put, Drop, Rest, ReadNews, GivenNow, SpuriousAfterRead;
    if Refused(s, ev) {
      NotedTwice(s, id, k, a, given, [ConnectionFailed(id)], []);
    } else if Breaks(s, ev) {
      NotedTwice(s, id, k, a, given, [Disconnected(id)], taken);
    } else if !c.connected {
      NotedTwice(s, id, k, a, given, [Connected(id)], taken);
      NotedSpurious(s1, id, Rest(c, taken));
    } else {
      NotedTwice(s, id, k, a, given, [], taken);
    }
  }

  lemma NotedSpurious(s: Tcp, id: nat, c: Connection)
    ensures Put(s, id, c).(spurious := s.spurious) == Put(s, id, c)
  {
  }

  /** The token of a connection is handled by the two halves. */
  lemma TokenOfConnection(s: Tcp, disconnected: set<nat>, ev: PollEvent)
    requires Inv(s, {}) && ev.token in s.connections && ev.token !in disconnected
    ensures ev.token in s.hist
    ensures HandleToken(s, disconnected, ev)
            == if !ev.readable && !ev.writable then Stopped(NoReadiness)
               else
                 match ReadPhase(s, ev)
                 case Stops(why) => Stopped(why)
                 case Leaves(s1) => Next(s1, disconnected + {ev.token})
                 case Stays(s1) =>
                   match WritePhase(s1, ev)
                   case Stops(why) => Stopped(why)
                   case Leaves(s2) => Next(s2, disconnected + {ev.token})
                   case Stays(s2) => Next(s2, disconnected)
  {
    hide OutputOk, IdOk, WritePhase;
    ReadPhaseKeys(s, ev);
    hide ReadPhase;
  }

  /** Under the invariant the interest left is plain. */
  lemma RestOk(s: Tcp, id: nat, taken: bytes)
    requires Inv(s, {}) && id in s.connections && taken <= s.connections[id].sendBuf
    ensures var rest := s.connections[id].sendBuf[|taken|..];
            Rest(s.connections[id], taken) == Connection(true, if rest == [] then READABLE else READ_WRITE, rest)
    ensures Put(s, id, s.connections[id]) == s
  {
    assert IdOk(s, id, false);
    assert s.connections[id := s.connections[id]] == s.connections;
    assert s.registered[id := s.connections[id].interest] == s.registered;
  }

  /** A polled connection, in any state of any run: exactly the news is told; it stays unless the peer has closed,
      refused it or broken it, and then leaves the transport, poll and the rest of the batch; what the socket
      took leaves the buffer; WRITABLE is asked for as long as bytes are pending; and nothing else changes. */
  lemma PolledConnection(s: Tcp, disconnected: set<nat>, ev: PollEvent)
    requires Inv(s, {}) && ev.token in s.connections && ev.token !in disconnected
    ensures var (id, c, r) := (ev.token, s.connections[ev.token], HandleToken(s, disconnected, ev));
            match Tripped(s, ev)
            case Some(why) => r == Stopped(why)
            case None =>
              && id in s.hist && TakenNow(s, ev) <= c.sendBuf
              && var rest := c.sendBuf[|TakenNow(s, ev)|..];
                 var c' := if Writes(s, ev) then Connection(true, if rest == [] then READABLE else READ_WRITE, rest) else c;
                 var s1 := if Survives(s, ev) then Put(s, id, c') else Drop(s, id);
                 r == Next(Noted(s1, id, News(s, ev), GivenNow(s, ev), TakenNow(s, ev))
                             .(spurious := SpuriousAfterWrite(s, ev)),
                           if Survives(s, ev) then disconnected else disconnected + {id})
  {
    var (id, c) := (ev.token, s.connections[ev.token]);
    TokenOfConnection(s, disconnected, ev);
    ReadHalf(s, ev);
    if Writes(s, ev) {
      WriteHalf(s, ev);
      RestOk(s, id, TakenNow(s, ev));
    } else {
      RestOk(s, id, []);
      assert ReadNews(id, GivenNow(s, ev), EndsReading(s, ev)) + [] == ReadNews(id, GivenNow(s, ev), EndsReading(s, ev));
      SpuriousOutside(s, id, SpuriousAfterRead(s, ev), ReadNews(id, GivenNow(s, ev), EndsReading(s, ev)), GivenNow(s, ev));
      assert c.sendBuf[0..] == c.sendBuf;
    }
    hide Inv, HandleToken, ReadPhase, ReadNews, Noted, Rest, GivenNow, Put, Drop;
  }

  // ---------------------------------------------------------------------------
  // A polled listener
  // ---------------------------------------------------------------------------

  /** A connection just accepted, not yet announced. */
  predicate Fresh(s: Tcp, s1: Tcp, id: nat) {
    && id !in s.connections && id !in s.listeners && InRange(id)
    && id in s1.connections && s1.connections[id] == Connection(true, READABLE, [])
    && id in s1.registered && s1.registered[id] == READABLE
    && id in s1.hist && s1.hist[id] == History(false, Lives(s, id), [], [], [], [])
  }

  /** Nothing about `id` has changed. */
  ghost predicate Untouched(s: Tcp, s1: Tcp, id: nat) {
    && SameId(s, s1, id)
    && (id in s.listeners <==> id in s1.listeners)
    && (id in s.registered <==> id in s1.registered)
    && (id in s.registered ==> s1.registered[id] == s.registered[id])
  }

  /** The fields after a connection was added. */
  lemma AddChanges(s: Tcp, outgoing: bool, c: Connection)
    requires Room(s, 1)
    ensures var (id, s1) := (s.nextId, AddConnection(s, outgoing, c));
            && s1.connections == s.connections[id := c] && s1.registered == s.registered[id := c.interest]
            && s1.hist == s.hist[id := History(outgoing, Lives(s, id), [], [], [], [])]
            && s1.listeners == s.listeners && s1.out == s.out && s1.spurious == s.spurious && s1.maxRead == s.maxRead
  {
    hide NextAfterBirth, Room;
  }

  lemma AddLeavesRest(s: Tcp, outgoing: bool, c: Connection, id: nat)
    requires Room(s, 1) && id != s.nextId
    ensures Untouched(s, AddConnection(s, outgoing, c), id)
  {
    hide Room;
    AddChanges(s, outgoing, c);
    hide AddConnection;
  }

  lemma AddIsFresh(s: Tcp, pending: set<nat>)
    requires Inv(s, pending) && Room(s, 1)
    ensures Fresh(s, AddConnection(s, false, Connection(true, READABLE, [])), s.nextId)
  {
    hide LivesOk, OutputOk, RegistryOk, Room, Lives;
    AddChanges(s, false, Connection(true, READABLE, []));
    hide AddConnection;
  }

  lemma AcceptOneMore(s: Tcp, n: nat)
    requires n > 0 && Room(s, n)
    ensures Room(s, n - 1) && Room(AcceptMany(s, n - 1).0, 1)
    ensures var (s1, ids) := AcceptMany(s, n - 1);
            AcceptMany(s, n) == (AddConnection(s1, false, Connection(true, READABLE, [])), ids + [s1.nextId])
  {
    hide NextAfterBirth;
  }

  lemma FreshThen(s: Tcp, s1: Tcp, s2: Tcp, id: nat)
    ensures Fresh(s, s1, id) && Untouched(s1, s2, id) ==> Fresh(s, s2, id)
    ensures Untouched(s, s1, id) && Untouched(s1, s2, id) ==> Untouched(s, s2, id)
    ensures Untouched(s, s1, id) && Fresh(s1, s2, id) ==> Fresh(s, s2, id)
    ensures Fresh(s, s1, id) ==> id in s1.connections
  {
  }

  lemma NothingAccepted(s: Tcp, id: nat)
    requires Room(s, 0)
    ensures AcceptMany(s, 0) == (s, []) && Untouched(s, s, id)
  {
  }

  lemma {:induction false} AcceptManyAt(s: Tcp, n: nat, id: nat)
    requires Inv(s, {}) && Room(s, n)
    ensures var (s1, ids) := AcceptMany(s, n);
            && (if id in ids then Fresh(s, s1, id) else Untouched(s, s1, id))
            && s1.out == s.out && s1.spurious == s.spurious && s1.maxRead == s.maxRead && s1.listeners == s.listeners
  {
    hide Inv, Room, AddConnection, Fresh, Untouched, Distinct, SetOf;
    if n == 0 {
      NothingAccepted(s, id);
    } else {
      AcceptOneMore(s, n);
      hide AcceptMany;
      AcceptManyAt(s, n - 1, id);
      AcceptManyInv(s, n - 1);
      var (s1, ids) := AcceptMany(s, n - 1);
      AddChanges(s1, false, Connection(true, READABLE, []));
      AddIsFresh(s1, SetOf(ids));
      LivePending(s1, SetOf(ids));
      if id != s1.nextId {
        AddLeavesRest(s1, false, Connection(true, READABLE, []), id);
      }
      FreshThen(s, s1, AcceptMany(s, n).0, id);
    }
  }

  lemma LivePending(s: Tcp, pending: set<nat>)
    requires Inv(s, pending)
    ensures s.nextId !in s.connections
  {
  }

  function Announced(ids: seq<nat>): seq<TransportEvent> {
    seq(|ids|, i requires 0 <= i < |ids| => Connected(ids[i]))
  }

  lemma {:induction false} EmitConnectedAt(s: Tcp, ids: seq<nat>, id: nat)
    requires Distinct(ids) && forall i :: 0 <= i < |ids| ==> ids[i] in s.hist
    ensures var s1 := EmitConnected(s, ids);
            && s1 == s.(out := s.out + Announced(ids), hist := s1.hist) && s1.hist.Keys == s.hist.Keys
            && (id in s.hist ==>
                  s1.hist[id]
                  == if id in ids then s.hist[id].(events := s.hist[id].events + [Connected(id)]) else s.hist[id])
  {
    if ids == [] {
      assert s.out + Announced(ids) == s.out;
    } else {
      var (init, last) := (ids[..|ids| - 1], ids[|ids| - 1]);
      EmitConnectedAt(s, init, id);
      assert ids == init + [last] && last !in init;
      assert s.out + Announced(init) + [Connected(last)] == s.out + Announced(ids);
    }
  }

  /** A connection accepted and announced in this step. */
  predicate Welcome(s: Tcp, s1: Tcp, id: nat) {
    && id !in s.connections && id !in s.listeners && InRange(id)
    && id in s1.connections && s1.connections[id] == Connection(true, READABLE, [])
    && id in s1.registered && s1.registered[id] == READABLE
    && id in s1.hist && s1.hist[id] == History(false, Lives(s, id), [Connected(id)], [], [], [])
  }

  lemma AcceptedAt(s: Tcp, n: nat, k: nat, id: nat)
    requires Inv(s, {}) && Room(s, n)
    ensures var (s1, ids) := AcceptMany(s, n);
            var s2 := EmitConnected(s1.(spurious := k), ids);
            && |ids| == n && Distinct(ids)
            && s2.out == s.out + Announced(ids) && s2.spurious == k && s2.listeners == s.listeners
            && if id in ids then Welcome(s, s2, id) else Untouched(s, s2, id)
  {
    hide Inv, AcceptMany, EmitConnected, Lives, Fresh, Untouched, Welcome, Distinct;
    AcceptManyInv(s, n);
    AcceptManyAt(s, n, id);
    var (s1, ids) := AcceptMany(s, n);
    PendingAreKnown(s1, ids);
    EmitConnectedAt(s1.(spurious := k), ids, id);
    AnnouncedAt(s, s1, EmitConnected(s1.(spurious := k), ids), ids, id);
  }

  lemma AnnouncedAt(s: Tcp, s1: Tcp, s2: Tcp, ids: seq<nat>, id: nat)
    requires if id in ids then Fresh(s, s1, id) else Untouched(s, s1, id)
    requires s2.connections == s1.connections && s2.registered == s1.registered && s2.listeners == s1.listeners
    requires s2.hist.Keys == s1.hist.Keys
    requires id in s1.hist ==>
               s2.hist[id]
               == if id in ids then s1.hist[id].(events := s1.hist[id].events + [Connected(id)]) else s1.hist[id]
    ensures if id in ids then Welcome(s, s2, id) else Untouched(s, s2, id)
  {
    hide Lives;
    assert [] + [Connected(id)] == [Connected(id)];
  }

  lemma PendingAreKnown(s: Tcp, ids: seq<nat>)
    requires Inv(s, SetOf(ids))
    ensures forall i :: 0 <= i < |ids| ==> ids[i] in s.hist
  {
    hide IdOk, OutputOk, RegistryOk, IdsOk;
    assert forall i :: 0 <= i < |ids| ==> ids[i] in SetOf(ids);
  }

  lemma TokenOfListener(s: Tcp, disconnected: set<nat>, ev: PollEvent)
    requires ev.token in s.listeners && ev.token != WAKE_ID
    ensures HandleToken(s, disconnected, ev)
            == match AcceptSummary(ev.acceptScript)
               case None => Stopped(AcceptFailed)
               case Some(n) =>
                 if !Room(s, n) then Stopped(IdsExhausted)
                 else if n == 0 && AcceptMany(s, n).0.spurious >= MAX_SPURIOUS_WAKEUPS then Stopped(TooManySpurious)
                 else
                   var (s1, ids) := AcceptMany(s, n);
                   Next(EmitConnected(s1.(spurious := if n == 0 then s1.spurious + 1 else 0), ids), disconnected)
  {
    hide AcceptMany, EmitConnected, AcceptSummary, Room;
  }

  /** A polled listener, in any state of any run: every accepted stream becomes a connection of its own, under an
      id that was not in use, established, registered and told as Connected, in order; accepting none is the
      spurious wakeup; and every other connection is left alone. */
  lemma PolledListener(s: Tcp, disconnected: set<nat>, ev: PollEvent) returns (ids: seq<nat>)
    requires Inv(s, {}) && ev.token in s.listeners
    ensures var r := HandleToken(s, disconnected, ev);
            match AcceptSummary(ev.acceptScript)
            case None => r == Stopped(AcceptFailed)
            case Some(n) =>
              if !Room(s, n) then r == Stopped(IdsExhausted)
              else if n == 0 && s.spurious >= MAX_SPURIOUS_WAKEUPS then r == Stopped(TooManySpurious)
              else
                && r.Next? && r.disconnected == disconnected && |ids| == n && Distinct(ids)
                && r.s.out == s.out + Announced(ids) && r.s.listeners == s.listeners
                && r.s.spurious == (if n == 0 then s.spurious + 1 else 0)
                && forall id :: if id in ids then Welcome(s, r.s, id) else Untouched(s, r.s, id)
  {
    ListenerIsNoWaker(s, ev.token);
    TokenOfListener(s, disconnected, ev);
    hide Inv, HandleToken, AcceptMany, AcceptSummary, EmitConnected, Welcome, Untouched, Room, Distinct;
    ids := [];
    if AcceptSummary(ev.acceptScript).Some? && Room(s, AcceptSummary(ev.acceptScript).value) {
      var n := AcceptSummary(ev.acceptScript).value;
      var k := if n == 0 then s.spurious + 1 else 0;
      var s1 := AcceptMany(s, n).0;
      ids := AcceptMany(s, n).1;
      AcceptManyAt(s, n, 0);
      AcceptedAt(s, n, k, 0);
      forall id
        ensures if id in ids then Welcome(s, EmitConnected(s1.(spurious := k), ids), id)
                else Untouched(s, EmitConnected(s1.(spurious := k), ids), id)
      {
        AcceptedAt(s, n, k, id);
      }
    }
  }

  lemma ListenerIsNoWaker(s: Tcp, id: nat)
    requires Inv(s, {}) && id in s.listeners
    ensures id != WAKE_ID
  {
  }

  /** The streams accepted are the leading ones, and accepting fails exactly when an error comes next. */
  lemma {:induction false} StreamsAccepted(script: seq<AcceptResult>, n: nat, rest: seq<AcceptResult>)
    requires script == seq(n, i => NewStream) + rest && (rest == [] || !rest[0].NewStream?)
    ensures AcceptSummary(script) == if rest != [] && rest[0].AcceptError? then None else Some(n)
  {
    if n == 0 {
      assert script == rest;
    } else {
      assert script[1..] == seq(n - 1, i => NewStream) + rest;
      StreamsAccepted(script[1..], n - 1, rest);
    }
  }

  /** The waker's token and one whose connection has left in this batch do nothing. */
  lemma OtherToken(s: Tcp, disconnected: set<nat>, ev: PollEvent)
    requires ev.token == WAKE_ID || (ev.token !in s.listeners && ev.token in disconnected)
    ensures HandleToken(s, disconnected, ev) == Next(s, disconnected)
  {
  }

  /** What poll reports of registered tokens is handled, all of it and in its order. */
  lemma {:induction false} AllPolledIsHandled(batch: seq<PollEvent>, tokens: set<nat>)
    requires forall i :: 0 <= i < |batch| ==> batch[i].token in tokens
    ensures Polled(batch, tokens) == batch
  {
    if batch != [] {
      AllPolledIsHandled(batch[..|batch| - 1], tokens);
    }
  }

  /** A poll round of tokens poll knows: they are handled one after the other, from the first to the last, each in the
      state and with the disconnected ids the ones before it have left; the first assertion hit ends the round. */
  lemma PollHandlesInOrder(s: Tcp, batch: seq<PollEvent>, k: nat)
    requires (s.connections != map[] || s.listeners != {}) && k < |batch|
    requires forall i :: 0 <= i < |batch| ==> batch[i].token in s.registered
    ensures HandleBatch(s, batch[..0]) == Next(s, {})
    ensures HandleBatch(s, batch[..k + 1])
            == match HandleBatch(s, batch[..k])
               case Stopped(why) => Stopped(why)
               case Next(mid, disconnected) => HandleToken(mid, disconnected, batch[k])
    ensures PollRound(s, batch)
            == match HandleBatch(s, batch)
               case Stopped(why) => Halted(why)
               case Next(s1, _) => Running(s1)
  {
    AllPolledIsHandled(batch, s.registered.Keys);
    hide HandleToken, Polled;
    assert batch[..k + 1][..k] == batch[..k];
  }
}
