/** What one polled token means to the TLS transport, in terms of what the TLS library and the socket took, gave and
    ended; and what the calls change and leave alone. */
module TlsOutcomes {
  import opened Bytes
  import opened TransportTypes
  import opened Ids
  import opened TlsModel
  import opened TlsLibrary
  import opened TlsProofs

  // ---------------------------------------------------------------------------
  // The read side and the write side of one connection
  // ---------------------------------------------------------------------------

  /** The handshake is over, now or since earlier. */
  predicate Established(status: ConnectionStatus, handshaking: bool) {
    status.TlsConnected? || !handshaking
  }

  /** A surviving connection: TlsConnected once the handshake is over, always asking for READABLE, and for WRITABLE
      as long as the library has something to send or, once established, plaintext is pending. */
  function Settled(status: ConnectionStatus, sendBuf: bytes, handshaking: bool, wantsWrite: bool): Connection {
    if Established(status, handshaking) then
      Connection(TlsConnected, Interest(true, wantsWrite || sendBuf != []), sendBuf)
    else Connection(TcpConnected, Interest(true, wantsWrite), sendBuf)
  }

  lemma SettleIsSettled(c: Connection, handshaking: bool, wantsWrite: bool)
    requires !c.status.NotConnected?
    ensures Settle(c, handshaking, wantsWrite) == Settled(c.status, c.sendBuf, handshaking, wantsWrite)
    ensures Settle(c, handshaking, wantsWrite).status != c.status
            <==> c.status.TcpConnected? && Established(c.status, handshaking)
  {
  }

  /** A readable connection: all plaintext handed over is told, then Disconnected if an established connection is
      lost, or Connected if the handshake is over now; a connection lost in its handshake goes without an event. */
  lemma ReadMeans(s: Tls, ev: PollEvent)
    requires ev.token in s.connections && ev.token in s.hist && ev.readable
    ensures var (id, c) := (ev.token, s.connections[ev.token]);
            var (given, ended) := (Given(ev.readScript, s.maxRead), Ended(ev.readScript, s.maxRead));
            var completes := c.status.TcpConnected? && Established(c.status, ev.handshakingAfterRead);
            var data := if given == [] then [] else [Data(id, given)];
            ReadPhase(s, ev)
            == if c.status.NotConnected? then Stops(ReadBeforeConnected)
               else if given != [] && c.status.TcpConnected? && (ended || ev.handshakingAfterRead) then
                 Stops(DataBeforeHandshake)
               else if ended && c.status.TcpConnected? then Vanishes(Drop(s, id))
               else if ended then Leaves(Noted(Drop(s, id), id, data + [Disconnected(id)], given, []))
               else if !ReadMoves(ev.readScript, s.maxRead) && s.spurious >= MAX_SPURIOUS_WAKEUPS then
                 Stops(TooManySpurious)
               else
                 var c' := Settled(c.status, c.sendBuf, ev.handshakingAfterRead, ev.wantsWriteAfterRead);
                 var k := if ReadMoves(ev.readScript, s.maxRead) then 0 else s.spurious + 1;
                 Stays(Noted(Put(s, id, c').(spurious := k), id, data + (if completes then [Connected(id)] else []),
                             given, []))
  {
    var (id, c) := (ev.token, s.connections[ev.token]);
    var given := Given(ev.readScript, s.maxRead);
    ReadIsGiven(ev.readScript, s.maxRead);
    if ReadPhase(s, ev).Stays? {
      ReadStaysNoted(s, ev);
      SettleIsSettled(c, ev.handshakingAfterRead, ev.wantsWriteAfterRead);
    } else if ReadPhase(s, ev).Leaves? {
      EmitDataIsNoted(Drop(s, id), id, given);
      EmitAfterNoted(Drop(s, id), id, DataEvents(id, given), given, [], Disconnected(id));
    }
    hide ReadSummary, Given, Ended, ReadMoves, Noted, EmitData, Emit, RecordReceived, Settled;
  }

  /** A writable connection: refused it is told as ConnectionFailed; broken as ConnectionFailed before the handshake
      is complete and as Disconnected after it; and otherwise exactly what the library took leaves the buffer, and
      Connected is told if the handshake is over now. */
  lemma WriteMeans(s: Tls, ev: PollEvent)
    requires ev.token in s.connections && ev.token in s.hist && ev.writable
    ensures var (id, c) := (ev.token, s.connections[ev.token]);
            var offered := if c.status.TlsConnected? then c.sendBuf else [];
            var taken := Taken(ev.writeScript, offered);
            var completes := !c.status.TlsConnected? && Established(c.status, ev.handshakingAfterWrite);
            var moves := c.status.NotConnected? || WriteMoves(ev.writeScript, offered);
            && taken <= c.sendBuf
            && WritePhase(s, ev)
               == if c.status.NotConnected? && ev.socketError then
                    Leaves(Noted(Drop(s, id), id, [ConnectionFailed(id)], [], []))
                  else if Broken(ev.writeScript, offered) then
                    var lost := if c.status.TlsConnected? then Disconnected(id) else ConnectionFailed(id);
                    Leaves(Noted(Drop(s, id), id, [lost], [], taken))
                  else if !moves && s.spurious >= MAX_SPURIOUS_WAKEUPS then Stops(TooManySpurious)
                  else
                    var c' := Settled(c.status, c.sendBuf[|taken|..], ev.handshakingAfterWrite, ev.wantsWriteAfterWrite);
                    Stays(Noted(Put(s, id, c').(spurious := if moves then 0 else s.spurious + 1), id,
                                if completes then [Connected(id)] else [], [], taken))
  {
    var (id, c) := (ev.token, s.connections[ev.token]);
    var offered := if c.status.TlsConnected? then c.sendBuf else [];
    var taken := Taken(ev.writeScript, offered);
    var moves := c.status.NotConnected? || WriteMoves(ev.writeScript, offered);
    WriteIs(s, ev);
    hide WritePhase, Taken, Broken, WriteMoves, Emit, RecordTaken, Noted, Settled, Put, Drop;
    RefusedIsNoted(s, id);
    WrittenIsNoted(s, id, taken, Settled(c.status, c.sendBuf[|taken|..], ev.handshakingAfterWrite,
                                         ev.wantsWriteAfterWrite), if moves then 0 else s.spurious + 1);
  }

  lemma WriteIs(s: Tls, ev: PollEvent)
    requires ev.token in s.connections && ev.token in s.hist && ev.writable
    ensures var (id, c) := (ev.token, s.connections[ev.token]);
            var offered := if c.status.TlsConnected? then c.sendBuf else [];
            var taken := Taken(ev.writeScript, offered);
            var completes := !c.status.TlsConnected? && Established(c.status, ev.handshakingAfterWrite);
            var moves := c.status.NotConnected? || WriteMoves(ev.writeScript, offered);
            && taken <= c.sendBuf
            && WritePhase(s, ev)
               == if c.status.NotConnected? && ev.socketError then Leaves(Emit(Drop(s, id), ConnectionFailed(id)))
                  else if Broken(ev.writeScript, offered) then
                    Leaves(Emit(Drop(RecordTaken(s, id, taken), id),
                                if c.status.TlsConnected? then Disconnected(id) else ConnectionFailed(id)))
                  else if !moves && s.spurious >= MAX_SPURIOUS_WAKEUPS then Stops(TooManySpurious)
                  else
                    var c' := Settled(c.status, c.sendBuf[|taken|..], ev.handshakingAfterWrite, ev.wantsWriteAfterWrite);
                    var s1 := Put(RecordTaken(s, id, taken), id, c').(spurious := if moves then 0 else s.spurious + 1);
                    Stays(if completes then Emit(s1, Connected(id)) else s1)
  {
    var (id, c) := (ev.token, s.connections[ev.token]);
    LoopTakesOffered(ev.writeScript, c);
    hide WriteSummary, Taken, Broken, WriteMoves, Emit, Settle, Settled, Drop;
    if !c.status.NotConnected? || !ev.socketError {
      var status := if c.status.NotConnected? then TcpConnected else c.status;
      var rest := Connection(status, c.interest, c.sendBuf[|Taken(ev.writeScript, Offered(c))|..]);
      SettleIsSettled(rest, ev.handshakingAfterWrite, ev.wantsWriteAfterWrite);
      SettledWhenConnecting(c.status, rest.sendBuf, ev.handshakingAfterWrite, ev.wantsWriteAfterWrite);
    }
  }

  lemma SettledWhenConnecting(status: ConnectionStatus, sendBuf: bytes, handshaking: bool, wantsWrite: bool)
    ensures status.NotConnected? ==>
              Settled(status, sendBuf, handshaking, wantsWrite) == Settled(TcpConnected, sendBuf, handshaking, wantsWrite)
  {
  }

  lemma RefusedIsNoted(s: Tls, id: nat)
    requires id in s.hist
    ensures Emit(Drop(s, id), ConnectionFailed(id)) == Noted(Drop(s, id), id, [ConnectionFailed(id)], [], [])
  {
    RecordTakenIsNoted(Drop(s, id), id, []);
    EmitAfterNoted(Drop(s, id), id, [], [], [], ConnectionFailed(id));
    assert [] + [ConnectionFailed(id)] == [ConnectionFailed(id)];
  }

  lemma WrittenIsNoted(s: Tls, id: nat, taken: bytes, c': Connection, k: nat)
    requires id in s.hist
    ensures Emit(Drop(RecordTaken(s, id, taken), id), ConnectionFailed(id))
            == Noted(Drop(s, id), id, [ConnectionFailed(id)], [], taken)
    ensures Emit(Drop(RecordTaken(s, id, taken), id), Disconnected(id))
            == Noted(Drop(s, id), id, [Disconnected(id)], [], taken)
    ensures var s1 := Put(RecordTaken(s, id, taken), id, c');
            && s1.spurious == s.spurious
            && s1.(spurious := k) == Noted(Put(s, id, c').(spurious := k), id, [], [], taken)
            && Emit(s1.(spurious := k), Connected(id))
               == Noted(Put(s, id, c').(spurious := k), id, [Connected(id)], [], taken)
  {
    RecordTakenIsNoted(Drop(s, id), id, taken);
    assert Drop(RecordTaken(s, id, taken), id) == RecordTaken(Drop(s, id), id, taken);
    EmitAfterNoted(Drop(s, id), id, [], [], taken, ConnectionFailed(id));
    EmitAfterNoted(Drop(s, id), id, [], [], taken, Disconnected(id));
    assert [] + [ConnectionFailed(id)] == [ConnectionFailed(id)] && [] + [Disconnected(id)] == [Disconnected(id)];
    assert [] + [Connected(id)] == [Connected(id)];
    var s2 := Put(s, id, c').(spurious := k);
    RecordTakenIsNoted(s2, id, taken);
    assert Put(RecordTaken(s, id, taken), id, c').(spurious := k) == RecordTaken(s2, id, taken);
    EmitAfterNoted(s2, id, [], [], taken, Connected(id));
  }

  // ---------------------------------------------------------------------------
  // A polled connection
  // ---------------------------------------------------------------------------

  /** Reading loses the connection. */
  predicate EndsReading(s: Tls, ev: PollEvent) {
    ev.readable && Ended(ev.readScript, s.maxRead)
  }

  /** The connection as the writable half finds it. */
  function Between(s: Tls, ev: PollEvent): Connection
    requires ev.token in s.connections
  {
    var c := s.connections[ev.token];
    if ev.readable then Settled(c.status, c.sendBuf, ev.handshakingAfterRead, ev.wantsWriteAfterRead) else c
  }

  predicate Refused(s: Tls, ev: PollEvent)
    requires ev.token in s.connections
  {
    ev.writable && !EndsReading(s, ev) && Between(s, ev).status.NotConnected? && ev.socketError
  }

  predicate Breaks(s: Tls, ev: PollEvent)
    requires ev.token in s.connections
  {
    ev.writable && !EndsReading(s, ev) && !Refused(s, ev) && Broken(ev.writeScript, Offered(Between(s, ev)))
  }

  predicate Survives(s: Tls, ev: PollEvent)
    requires ev.token in s.connections
  {
    !EndsReading(s, ev) && !Refused(s, ev) && !Breaks(s, ev)
  }

  function GivenNow(s: Tls, ev: PollEvent): bytes {
    if ev.readable then Given(ev.readScript, s.maxRead) else []
  }

  function TakenNow(s: Tls, ev: PollEvent): bytes
    requires ev.token in s.connections
  {
    if ev.writable && !EndsReading(s, ev) && !Refused(s, ev) then Taken(ev.writeScript, Offered(Between(s, ev))) else []
  }

  /** What the application hears of the reading, and of the writing. */
  function ReadNews(s: Tls, ev: PollEvent): seq<TransportEvent>
    requires ev.token in s.connections
  {
    var (id, status) := (ev.token, s.connections[ev.token].status);
    (if GivenNow(s, ev) == [] then [] else [Data(id, GivenNow(s, ev))])
    + if EndsReading(s, ev) then (if status.TlsConnected? then [Disconnected(id)] else [])
      else if ev.readable && status.TcpConnected? && !ev.handshakingAfterRead then [Connected(id)]
      else []
  }

  function WriteNews(s: Tls, ev: PollEvent): seq<TransportEvent>
    requires ev.token in s.connections
  {
    var (id, status) := (ev.token, Between(s, ev).status);
    if Refused(s, ev) then [ConnectionFailed(id)]
    else if Breaks(s, ev) then [if status.TlsConnected? then Disconnected(id) else ConnectionFailed(id)]
    else if ev.writable && !EndsReading(s, ev) && !status.TlsConnected? && !ev.handshakingAfterWrite then [Connected(id)]
    else []
  }

  /** The connection as both halves leave it. */
  function LeftBehind(s: Tls, ev: PollEvent): Connection
    requires ev.token in s.connections && |TakenNow(s, ev)| <= |s.connections[ev.token].sendBuf|
  {
    var (c, rest) := (Between(s, ev), s.connections[ev.token].sendBuf[|TakenNow(s, ev)|..]);
    if ev.writable then Settled(c.status, rest, ev.handshakingAfterWrite, ev.wantsWriteAfterWrite) else c
  }

  lemma NotedTwice(s: Tls, id: nat, c1: Connection, k1: nat, a: seq<TransportEvent>, given: bytes, c2: Connection,
                   k2: nat, b: seq<TransportEvent>, taken: bytes)
    requires id in s.hist
    ensures var s1 := Noted(Put(s, id, c1).(spurious := k1), id, a, given, []);
            && id in s1.hist && id in s1.connections && s1.connections[id] == c1
            && s1.spurious == k1 && s1.maxRead == s.maxRead
            && Noted(Drop(s1, id), id, b, [], taken) == Noted(Drop(s, id).(spurious := k1), id, a + b, given, taken)
            && Noted(Put(s1, id, c2).(spurious := k2), id, b, [], taken)
               == Noted(Put(s, id, c2).(spurious := k2), id, a + b, given, taken)
  {
    var h := s.hist[id];
    var h1 := Noted(s, id, a, given, []).hist[id];
    var h2 := h.(events := h.events + (a + b), received := h.received + given, plaintext := h.plaintext + taken);
    assert h.plaintext + [] == h.plaintext && h1.received + [] == h1.received;
    assert h.events + a + b == h.events + (a + b) && s.out + a + b == s.out + (a + b);
    assert s.hist[id := h1][id := h2] == s.hist[id := h2];
    assert s.connections[id := c1][id := c2] == s.connections[id := c2];
    assert s.registered[id := c1.interest][id := c2.interest] == s.registered[id := c2.interest];
    assert s.connections[id := c1] - {id} == s.connections - {id};
    assert s.registered[id := c1.interest] - {id} == s.registered - {id};
  }

  /** The spurious-wakeup counter after each half. */
  function SpuriousAfterRead(s: Tls, ev: PollEvent): nat {
    if !ev.readable || EndsReading(s, ev) then s.spurious
    else if ReadMoves(ev.readScript, s.maxRead) then 0
    else s.spurious + 1
  }

  predicate WriteProgress(s: Tls, ev: PollEvent)
    requires ev.token in s.connections
  {
    Between(s, ev).status.NotConnected? || WriteMoves(ev.writeScript, Offered(Between(s, ev)))
  }

  function SpuriousAfterWrite(s: Tls, ev: PollEvent): nat
    requires ev.token in s.connections
  {
    if !ev.writable || !Survives(s, ev) then SpuriousAfterRead(s, ev)
    else if WriteProgress(s, ev) then 0
    else SpuriousAfterRead(s, ev) + 1
  }

  /** Which assertion the event runs into, if any. */
  function Tripped(s: Tls, ev: PollEvent): Option<Halt>
    requires ev.token in s.connections
  {
    var status := s.connections[ev.token].status;
    if !ev.readable && !ev.writable then Some(NoReadiness)
    else if ev.readable && status.NotConnected? then Some(ReadBeforeConnected)
    else if status.TcpConnected? && GivenNow(s, ev) != [] && (EndsReading(s, ev) || ev.handshakingAfterRead) then
      Some(DataBeforeHandshake)
    else if status.TcpConnected? && EndsReading(s, ev) && ev.writable then Some(MissingConnection)
    else if SpuriousAfterRead(s, ev) > s.spurious >= MAX_SPURIOUS_WAKEUPS then Some(TooManySpurious)
    else if SpuriousAfterWrite(s, ev) > SpuriousAfterRead(s, ev) >= MAX_SPURIOUS_WAKEUPS then Some(TooManySpurious)
    else None
  }

  lemma TokenOfConnection(s: Tls, disconnected: set<nat>, vanished: set<nat>, ev: PollEvent)
    requires Inv(s) && ev.token in s.connections && ev.token !in disconnected
    ensures ev.token in s.hist
    ensures HandleToken(s, disconnected, vanished, ev)
            == if !ev.readable && !ev.writable then Stopped(NoReadiness)
               else
                 match ReadPhase(s, ev)
                 case Stops(why) => Stopped(why)
                 case Leaves(s1) => Next(s1, disconnected + {ev.token}, vanished)
                 case Vanishes(s1) =>
                   if ev.writable then Stopped(MissingConnection) else Next(s1, disconnected, vanished + {ev.token})
                 case Stays(s1) =>
                   if ev.token !in s1.connections then Stopped(MissingConnection)
                   else
                     match WritePhase(s1, ev)
                     case Stops(why) => Stopped(why)
                     case Leaves(s2) => Next(s2, disconnected + {ev.token}, vanished)
                     case Vanishes(s2) => Next(s2, disconnected, vanished + {ev.token})
                     case Stays(s2) => Next(s2, disconnected, vanished)
  {
    InvIds(s);
    KnownIds(s);
    hide Inv, ReadPhase, WritePhase, AcceptPhase;
  }

  lemma KnownIds(s: Tls)
    requires Inv(s)
    ensures s.connections.Keys <= s.hist.Keys
  {
  }

  /** The state between the two halves. */
  function AfterRead(s: Tls, ev: PollEvent): Tls
    requires ev.token in s.connections && ev.token in s.hist
  {
    Noted(Put(s, ev.token, Between(s, ev)).(spurious := SpuriousAfterRead(s, ev)), ev.token, ReadNews(s, ev),
          GivenNow(s, ev), [])
  }

  lemma ReadHalf(s: Tls, ev: PollEvent)
    requires ev.token in s.connections && ev.token in s.hist && ev.token in s.registered
    requires s.registered[ev.token] == s.connections[ev.token].interest
    ensures var (id, status) := (ev.token, s.connections[ev.token].status);
            ReadPhase(s, ev)
            == if ev.readable && status.NotConnected? then Stops(ReadBeforeConnected)
               else if status.TcpConnected? && GivenNow(s, ev) != [] && (EndsReading(s, ev) || ev.handshakingAfterRead)
               then Stops(DataBeforeHandshake)
               else if EndsReading(s, ev) then
                 (if status.TcpConnected? then Vanishes(Drop(s, id))
                  else Leaves(Noted(Drop(s, id), id, ReadNews(s, ev), GivenNow(s, ev), [])))
               else if SpuriousAfterRead(s, ev) > s.spurious >= MAX_SPURIOUS_WAKEUPS then Stops(TooManySpurious)
               else Stays(AfterRead(s, ev))
  {
    if ev.readable {
      ReadMeans(s, ev);
      hide ReadPhase, Given, Ended, ReadMoves, Noted, Put, Drop, Settled;
    } else {
      PutBack(s, ev.token);
      RecordTakenIsNoted(s, ev.token, []);
      assert ReadNews(s, ev) == [];
    }
  }

  lemma PutBack(s: Tls, id: nat)
    requires id in s.connections && id in s.registered && s.registered[id] == s.connections[id].interest
    ensures Put(s, id, s.connections[id]).(spurious := s.spurious) == s
  {
    assert s.connections[id := s.connections[id]] == s.connections;
    assert s.registered[id := s.connections[id].interest] == s.registered;
  }

  lemma WriteHalf(s: Tls, ev: PollEvent)
    requires ev.token in s.connections && ev.token in s.hist && ev.writable && !EndsReading(s, ev)
    ensures TakenNow(s, ev) <= s.connections[ev.token].sendBuf
    ensures var (id, k) := (ev.token, SpuriousAfterRead(s, ev));
            var news := ReadNews(s, ev) + WriteNews(s, ev);
            WritePhase(AfterRead(s, ev), ev)
            == if !Survives(s, ev) then
                 Leaves(Noted(Drop(s, id).(spurious := k), id, news, GivenNow(s, ev), TakenNow(s, ev)))
               else if SpuriousAfterWrite(s, ev) > k >= MAX_SPURIOUS_WAKEUPS then Stops(TooManySpurious)
               else
                 Stays(Noted(Put(s, id, LeftBehind(s, ev)).(spurious := SpuriousAfterWrite(s, ev)), id, news,
                             GivenNow(s, ev), TakenNow(s, ev)))
  {
    WriteAfter(s, ev, Between(s, ev), SpuriousAfterRead(s, ev), ReadNews(s, ev), GivenNow(s, ev));
    assert Between(s, ev).sendBuf == s.connections[ev.token].sendBuf;
    assert ReadNews(s, ev) + [] == ReadNews(s, ev);
    hide WritePhase, Given, Taken, Broken, WriteMoves, Ended, Noted, Put, Drop, Settled, ReadNews, GivenNow,
         SpuriousAfterRead, Between;
  }

  /** Writing after something was noted of the reading. */
  lemma WriteAfter(s: Tls, ev: PollEvent, c1: Connection, k: nat, a: seq<TransportEvent>, given: bytes)
    requires ev.token in s.hist && ev.writable
    ensures var id := ev.token;
            var taken := Taken(ev.writeScript, Offered(c1));
            var moves := c1.status.NotConnected? || WriteMoves(ev.writeScript, Offered(c1));
            var s1 := Noted(Put(s, id, c1).(spurious := k), id, a, given, []);
            && taken <= c1.sendBuf
            && WritePhase(s1, ev)
               == if c1.status.NotConnected? && ev.socketError then
                    Leaves(Noted(Drop(s, id).(spurious := k), id, a + [ConnectionFailed(id)], given, []))
                  else if Broken(ev.writeScript, Offered(c1)) then
                    var lost := if c1.status.TlsConnected? then Disconnected(id) else ConnectionFailed(id);
                    Leaves(Noted(Drop(s, id).(spurious := k), id, a + [lost], given, taken))
                  else if !moves && k >= MAX_SPURIOUS_WAKEUPS then Stops(TooManySpurious)
                  else
                    var c2 := Settled(c1.status, c1.sendBuf[|taken|..], ev.handshakingAfterWrite, ev.wantsWriteAfterWrite);
                    var news := if !c1.status.TlsConnected? && !ev.handshakingAfterWrite then [Connected(id)] else [];
                    Stays(Noted(Put(s, id, c2).(spurious := if moves then 0 else k + 1), id, a + news, given, taken))
  {
    var id := ev.token;
    var s1 := Noted(Put(s, id, c1).(spurious := k), id, a, given, []);
    assert id in s1.connections && s1.connections[id] == c1 && id in s1.hist && s1.spurious == k;
    WriteMeans(s1, ev);
    var taken := Taken(ev.writeScript, Offered(c1));
    var moves := c1.status.NotConnected? || WriteMoves(ev.writeScript, Offered(c1));
    hide WritePhase, Taken, Broken, WriteMoves, Noted, Put, Drop, Settled;
    var c2 := Settled(c1.status, c1.sendBuf[|taken|..], ev.handshakingAfterWrite, ev.wantsWriteAfterWrite);
    var k2 := if moves then 0 else k + 1;
    if c1.status.NotConnected? && ev.socketError {
      NotedTwice(s, id, c1, k, a, given, c2, k2, [ConnectionFailed(id)], []);
    } else if Broken(ev.writeScript, Offered(c1)) {
      var lost := if c1.status.TlsConnected? then Disconnected(id) else ConnectionFailed(id);
      NotedTwice(s, id, c1, k, a, given, c2, k2, [lost], taken);
    } else {
      var news := if !c1.status.TlsConnected? && !ev.handshakingAfterWrite then [Connected(id)] else [];
      NotedTwice(s, id, c1, k, a, given, c2, k2, news, taken);
    }
  }

  /** A polled connection, in any state of any run: exactly the news is told; it leaves the transport, and poll, if it
      was lost, refused or broken; exactly the plaintext the library took leaves the buffer; and nothing else changes.
      A connection lost in its handshake by reading leaves without an event, and is not entered among the
      disconnected ones. */
  lemma PolledConnection(s: Tls, disconnected: set<nat>, vanished: set<nat>, ev: PollEvent)
    requires Inv(s) && ev.token in s.connections && ev.token !in disconnected
    ensures var (id, r) := (ev.token, HandleToken(s, disconnected, vanished, ev));
            var silent := EndsReading(s, ev) && s.connections[id].status.TcpConnected?;
            match Tripped(s, ev)
            case Some(why) => r == Stopped(why)
            case None =>
              && id in s.hist && TakenNow(s, ev) <= s.connections[id].sendBuf
              && var s1 := if Survives(s, ev) then Put(s, id, LeftBehind(s, ev)) else Drop(s, id);
                 r == Next(Noted(s1.(spurious := SpuriousAfterWrite(s, ev)), id, ReadNews(s, ev) + WriteNews(s, ev),
                                 GivenNow(s, ev), TakenNow(s, ev)),
                           if Survives(s, ev) || silent then disconnected else disconnected + {id},
                           if silent then vanished + {id} else vanished)
  {
    var (id, c) := (ev.token, s.connections[ev.token]);
    TokenOfConnection(s, disconnected, vanished, ev);
    InterestIsRegistered(s, id);
    ReadHalf(s, ev);
    if ev.writable && !EndsReading(s, ev) {
      WriteHalf(s, ev);
    } else {
      assert ReadNews(s, ev) + [] == ReadNews(s, ev);
      assert c.sendBuf[0..] == c.sendBuf;
      RecordTakenIsNoted(Drop(s, id), id, []);
      SameSpurious(s, id);
    }
    hide Inv, HandleToken, ReadPhase, Noted, GivenNow, Put, Drop, Settled;
  }

  lemma InterestIsRegistered(s: Tls, id: nat)
    requires Inv(s) && id in s.connections
    ensures id in s.registered && s.registered[id] == s.connections[id].interest
  {
  }

  lemma SameSpurious(s: Tls, id: nat)
    ensures Drop(s, id).(spurious := s.spurious) == Drop(s, id)
  {
  }

  // ---------------------------------------------------------------------------
  // A polled listener
  // ---------------------------------------------------------------------------

  /** A connection accepted in this step: established as a socket, not yet secured and not announced. */
  predicate Fresh(s: Tls, s1: Tls, id: nat) {
    && id !in s.connections && id !in s.listeners && InRange(id)
    && id in s1.connections && s1.connections[id] == Connection(TcpConnected, READABLE, [])
    && id in s1.registered && s1.registered[id] == READABLE
    && id in s1.hist && s1.hist[id] == History(false, Past(s, id), [], [], [], HandedOver(s, id))
  }

  /** Nothing about `id` has changed. */
  ghost predicate Untouched(s: Tls, s1: Tls, id: nat) {
    && SameId(s, s1, id)
    && (id in s.listeners <==> id in s1.listeners)
    && (id in s.registered <==> id in s1.registered)
    && (id in s.registered ==> s1.registered[id] == s.registered[id])
  }

  predicate Distinct(ids: seq<nat>) {
    forall i, j :: 0 <= i < j < |ids| ==> ids[i] != ids[j]
  }

  /** The ids given to `n` accepted streams, in order. */
  ghost function AcceptedIds(s: Tls, n: nat): (ids: seq<nat>)
    requires Room(s, n)
    ensures |ids| == n
  {
    if n == 0 then [] else AcceptedIds(s, n - 1) + [AcceptMany(s, n - 1).nextId]
  }

  /** The fields after a connection was added. */
  lemma AddChanges(s: Tls, outgoing: bool)
    requires Room(s, 1)
    ensures var (id, c, s1) := (s.nextId, NewConnection(outgoing), AddConnection(s, outgoing));
            && s1.connections == s.connections[id := c] && s1.registered == s.registered[id := c.interest]
            && s1.hist == s.hist[id := History(outgoing, Past(s, id), [], [], [], HandedOver(s, id))]
            && s1.listeners == s.listeners && s1.out == s.out && s1.spurious == s.spurious && s1.maxRead == s.maxRead
  {
    hide NextAfterBirth, Room;
  }

  lemma AddLeavesRest(s: Tls, outgoing: bool, id: nat)
    requires Room(s, 1) && id != s.nextId
    ensures Untouched(s, AddConnection(s, outgoing), id)
  {
    hide Room;
    AddChanges(s, outgoing);
    hide AddConnection;
  }

  lemma AddIsFresh(s: Tls)
    requires Inv(s) && Room(s, 1)
    ensures Fresh(s, AddConnection(s, false), s.nextId)
  {
    hide LivesOk, OutputOk, Room, Past, HandedOver;
    AddChanges(s, false);
    hide AddConnection;
  }

  lemma AcceptOneMore(s: Tls, n: nat)
    requires n > 0 && Room(s, n)
    ensures Room(s, n - 1) && Room(AcceptMany(s, n - 1), 1)
    ensures AcceptMany(s, n) == AddConnection(AcceptMany(s, n - 1), false)
    ensures AcceptedIds(s, n) == AcceptedIds(s, n - 1) + [AcceptMany(s, n - 1).nextId]
  {
    hide NextAfterBirth;
  }

  lemma UntouchedThen(s: Tls, s1: Tls, s2: Tls, id: nat)
    requires Untouched(s, s1, id)
    ensures Untouched(s1, s2, id) ==> Untouched(s, s2, id)
    ensures Fresh(s1, s2, id) ==> Fresh(s, s2, id)
  {
  }

  lemma FreshThen(s: Tls, s1: Tls, s2: Tls, id: nat)
    requires Fresh(s, s1, id) && Untouched(s1, s2, id)
    ensures Fresh(s, s2, id)
  {
    hide Past, HandedOver;
  }

  lemma {:induction false} AcceptManyAt(s: Tls, n: nat, id: nat)
    requires Inv(s) && Room(s, n)
    ensures var (s1, ids) := (AcceptMany(s, n), AcceptedIds(s, n));
            && (if id in ids then Fresh(s, s1, id) else Untouched(s, s1, id))
            && s1.out == s.out && s1.spurious == s.spurious && s1.listeners == s.listeners
  {
    hide Inv, Room, AddConnection, Fresh, Untouched;
    if n == 0 {
      NothingAccepted(s, id);
    } else {
      AcceptOneMore(s, n);
      hide AcceptMany, AcceptedIds;
      AcceptManyAt(s, n - 1, id);
      AcceptManyInv(s, n - 1);
      var (s1, ids) := (AcceptMany(s, n - 1), AcceptedIds(s, n - 1));
      AddChanges(s1, false);
      AddIsFresh(s1);
      PreparedIsFree(s1);
      if id != s1.nextId {
        AddLeavesRest(s1, false, id);
      }
      if id in ids {
        FreshIsLive(s, s1, id);
        FreshThen(s, s1, AcceptMany(s, n), id);
      } else {
        UntouchedThen(s, s1, AcceptMany(s, n), id);
      }
    }
  }

  lemma NothingAccepted(s: Tls, id: nat)
    requires Room(s, 0)
    ensures AcceptMany(s, 0) == s && AcceptedIds(s, 0) == [] && Untouched(s, s, id)
  {
  }

  lemma FreshIsLive(s: Tls, s1: Tls, id: nat)
    requires Fresh(s, s1, id)
    ensures id in s1.connections
  {
  }

  lemma PreparedIsFree(s: Tls)
    requires Inv(s)
    ensures s.nextId !in s.connections && s.nextId !in s.listeners
  {
  }

  lemma PreparedIsNew(s: Tls, n: nat)
    requires Inv(s) && Room(s, n)
    ensures AcceptMany(s, n).nextId !in AcceptedIds(s, n)
  {
    hide Inv, AcceptMany, AcceptedIds, Room, Fresh, Untouched;
    var (s1, ids) := (AcceptMany(s, n), AcceptedIds(s, n));
    AcceptManyInv(s, n);
    PreparedIsFree(s1);
    AcceptManyAt(s, n, s1.nextId);
    if s1.nextId in ids {
      FreshIsLive(s, s1, s1.nextId);
    }
  }

  lemma DistinctSnoc(ids: seq<nat>, id: nat)
    requires Distinct(ids) && id !in ids
    ensures Distinct(ids + [id])
  {
  }

  lemma {:induction false} AcceptedAreDistinct(s: Tls, n: nat)
    requires Inv(s) && Room(s, n)
    ensures Distinct(AcceptedIds(s, n))
  {
    hide Inv, AcceptMany, Room, Fresh, Untouched;
    if n == 0 {
      assert AcceptedIds(s, n) == [];
    } else {
      AcceptOneMore(s, n);
      hide AcceptedIds, Distinct;
      AcceptedAreDistinct(s, n - 1);
      PreparedIsNew(s, n - 1);
      DistinctSnoc(AcceptedIds(s, n - 1), AcceptMany(s, n - 1).nextId);
    }
  }

  /** A polled listener: every accepted stream becomes a connection of its own in its handshake, under an id that was
      not in use; nothing is told of it yet; accepting none is the spurious wakeup; and every other connection is
      left alone. */
  lemma PolledListener(s: Tls, script: seq<AcceptResult>) returns (ids: seq<nat>)
    requires Inv(s)
    ensures match AcceptSummary(script)
            case None => AcceptPhase(s, script) == Halted(AcceptFailed)
            case Some(n) =>
              if !Room(s, n) then AcceptPhase(s, script) == Halted(IdsExhausted)
              else if n == 0 && s.spurious >= MAX_SPURIOUS_WAKEUPS then AcceptPhase(s, script) == Halted(TooManySpurious)
              else
                && AcceptPhase(s, script).Running?
                && var s' := AcceptPhase(s, script).s;
                   && |ids| == n && Distinct(ids) && s'.out == s.out && s'.listeners == s.listeners
                   && s'.spurious == (if n == 0 then s.spurious + 1 else 0)
                   && forall id :: if id in ids then Fresh(s, s', id) else Untouched(s, s', id)
  {
    hide Inv, AcceptSummary, AcceptMany, AcceptedIds, Room, Distinct;
    ids := [];
    if AcceptSummary(script).Some? && Room(s, AcceptSummary(script).value) {
      var n := AcceptSummary(script).value;
      var (s1, k) := (AcceptMany(s, n), if n == 0 then s.spurious + 1 else 0);
      ids := AcceptedIds(s, n);
      AcceptedAreDistinct(s, n);
      AcceptManyAt(s, n, 0);
      forall id
        ensures if id in ids then Fresh(s, s1.(spurious := k), id) else Untouched(s, s1.(spurious := k), id)
      {
        AcceptManyAt(s, n, id);
      }
      hide Fresh, Untouched;
    }
  }

  // ---------------------------------------------------------------------------
  // Calls
  // ---------------------------------------------------------------------------

  /** A granted connect or listen: the prepared id, free until now, is registered, for WRITABLE or for READABLE, and
      becomes a connection that is connecting or a listener; the next free id is prepared. */
  lemma OpenExactness(s: Tls, op: Op, id: nat)
    requires (op.Connect? || op.Listen?) && Inv(s)
    ensures match Step(s, op)
            case Halted(why) => why == IdsExhausted && op.ok && |s.connections| + |s.listeners| + 1 >= ID_COUNT
            case Running(s') =>
              if !op.ok then s' == s
              else
                && s'.out == s.out && s'.spurious == s.spurious && |s.connections| + |s.listeners| + 1 < ID_COUNT
                && IsNextFree(Live(s) + {s.nextId}, s.nextId, s'.nextId)
                && if id != s.nextId then Untouched(s, s', id)
                   else if op.Connect? then
                     && id !in Live(s) && id in s'.connections && s'.connections[id] == Connection(NotConnected, WRITABLE, [])
                     && id in s'.registered && s'.registered[id] == WRITABLE && id !in s'.listeners
                     && id in s'.hist && s'.hist[id] == History(true, Past(s, id), [], [], [], HandedOver(s, id))
                   else
                     && id !in Live(s) && id in s'.listeners && id in s'.registered && s'.registered[id] == READABLE
                     && SameId(s, s', id)
  {
    PreparedIsFree(s);
    assert s.nextId !in Live(s);
    hide Inv, Past, HandedOver, AddConnection, AddListener, Live;
    if op.ok && Room(s, 1) {
      ConnectAdds(s, id);
      ListenAdds(s, id);
    }
  }

  lemma NextIsFirstFree(s: Tls)
    requires Room(s, 1)
    ensures IsNextFree(Live(s) + {s.nextId}, s.nextId, NextAfterBirth(s))
  {
    RoomLeavesFree(s);
  }

  lemma ConnectAdds(s: Tls, id: nat)
    requires Room(s, 1) && s.nextId !in s.connections && s.nextId !in s.listeners
    ensures var c := Connection(NotConnected, WRITABLE, []);
            var s' := AddConnection(s, true);
            && s'.out == s.out && s'.spurious == s.spurious && IsNextFree(Live(s) + {s.nextId}, s.nextId, s'.nextId)
            && if id != s.nextId then Untouched(s, s', id)
               else
                 && id in s'.connections && s'.connections[id] == c && id !in s'.listeners
                 && id in s'.registered && s'.registered[id] == WRITABLE
                 && id in s'.hist && s'.hist[id] == History(true, Past(s, id), [], [], [], HandedOver(s, id))
  {
    NextIsFirstFree(s);
    hide NextAfterBirth, IsNextFree, Room, Live, Untouched, Past, HandedOver;
    assert AddConnection(s, true).nextId == NextAfterBirth(s);
    AddChanges(s, true);
    hide AddConnection;
    if id != s.nextId {
      AddLeavesRest(s, true, id);
    }
  }

  lemma ListenAdds(s: Tls, id: nat)
    requires Room(s, 1) && s.nextId !in s.connections && s.nextId !in s.listeners
    ensures var s' := AddListener(s);
            && s'.out == s.out && s'.spurious == s.spurious && IsNextFree(Live(s) + {s.nextId}, s.nextId, s'.nextId)
            && if id != s.nextId then Untouched(s, s', id)
               else
                 && id in s'.listeners && id in s'.registered && s'.registered[id] == READABLE && SameId(s, s', id)
  {
    NextIsFirstFree(s);
    hide NextAfterBirth, IsNextFree, Room, Live;
    assert AddListener(s).nextId == NextAfterBirth(s);
    ListenChanges(s);
    ListenTouches(s, id);
    hide AddListener, Untouched, SameId;
  }

  lemma ListenTouches(s: Tls, id: nat)
    requires Room(s, 1)
    ensures SameId(s, AddListener(s), id)
    ensures id != s.nextId ==> Untouched(s, AddListener(s), id)
  {
    ListenChanges(s);
    hide AddListener, Room;
  }

  lemma ListenChanges(s: Tls)
    requires Room(s, 1)
    ensures var s1 := AddListener(s);
            && s1.listeners == s.listeners + {s.nextId} && s1.registered == s.registered[s.nextId := READABLE]
            && s1.connections == s.connections && s1.hist == s.hist && s1.out == s.out && s1.spurious == s.spurious
  {
    hide NextAfterBirth, Room;
  }

  /** Sending queues the data on the one connection it names, which asks for WRITABLE from then on. It tells nothing,
      and unknown ids are ignored. */
  lemma QueueExactness(s: Tls, to: nat, data: bytes, id: nat)
    requires Inv(s)
    ensures Step(s, Queue(to, data)).Running?
    ensures var s' := Step(s, Queue(to, data)).s;
            && s'.out == s.out && s'.nextId == s.nextId && s'.spurious == s.spurious
            && if id != to || id !in s.connections then Untouched(s, s', id)
               else
                 var (c, c') := (s.connections[id], s'.connections[id]);
                 && id in s.hist && id in s'.hist && id in s'.registered
                 && c' == Connection(c.status, Interest(c.interest.readable, true), c.sendBuf + data)
                 && s'.registered[id] == c'.interest
                 && s'.hist[id] == s.hist[id].(queued := s.hist[id].queued + [data])
  {
    KnownIds(s);
    hide Inv;
  }

  /** Closing takes the one connection it names out of the transport and out of poll, and tells nothing. */
  lemma CloseExactness(s: Tls, gone: nat, id: nat)
    ensures Step(s, Close(gone)).Running?
    ensures var s' := Step(s, Close(gone)).s;
            && s'.out == s.out && s'.nextId == s.nextId && s'.spurious == s.spurious
            && if id != gone || id !in s.connections then Untouched(s, s', id)
               else id !in s'.connections && id !in s'.registered && s'.hist == s.hist
  {
  }

  // ---------------------------------------------------------------------------
  // Inactive
  // ---------------------------------------------------------------------------

  /** The machine has told some more, none of it Inactive. */
  ghost predicate Busy(s: Tls, s': Tls) {
    s.out <= s'.out && forall i :: |s.out| <= i < |s'.out| ==> !s'.out[i].Inactive?
  }

  lemma BusyThen(s: Tls, s1: Tls, s2: Tls)
    requires Busy(s, s1) && Busy(s1, s2)
    ensures Busy(s, s2)
  {
    forall i | |s.out| <= i < |s2.out|
      ensures !s2.out[i].Inactive?
    {
      assert i < |s1.out| ==> s2.out[i] == s1.out[i];
    }
  }

  lemma {:induction false} AcceptingIsSilent(s: Tls, n: nat)
    requires Room(s, n)
    ensures AcceptMany(s, n).out == s.out
  {
    hide NextAfterBirth;
    if n > 0 {
      AcceptingIsSilent(s, n - 1);
    }
  }

  lemma EmitIsBusy(s: Tls, s1: Tls, e: TransportEvent)
    requires Busy(s, s1) && !e.Inactive?
    ensures Busy(s, Emit(s1, e))
  {
  }

  lemma ReadIsBusy(s: Tls, ev: PollEvent)
    requires ev.token in s.connections && !ReadPhase(s, ev).Stops?
    ensures Busy(s, ReadPhase(s, ev).s)
  {
    forall s1: Tls, e: TransportEvent | Busy(s, s1) && !e.Inactive?
      ensures Busy(s, Emit(s1, e))
    {
      EmitIsBusy(s, s1, e);
    }
    forall s1: Tls | s1.out == s.out
      ensures Busy(s, s1)
    {
    }
    hide ReadSummary, Given, Settle, Emit, Busy;
  }

  lemma WriteIsBusy(s: Tls, ev: PollEvent)
    requires ev.token in s.connections && !WritePhase(s, ev).Stops?
    ensures Busy(s, WritePhase(s, ev).s)
  {
    hide WriteSummary, Taken, Settle;
  }

  lemma AcceptIsBusy(s: Tls, script: seq<AcceptResult>)
    requires AcceptPhase(s, script).Running?
    ensures Busy(s, AcceptPhase(s, script).s)
  {
    hide AcceptMany, AcceptSummary, Room;
    AcceptingIsSilent(s, AcceptSummary(script).value);
  }

  lemma TokenIsBusy(s: Tls, disconnected: set<nat>, vanished: set<nat>, ev: PollEvent)
    requires HandleToken(s, disconnected, vanished, ev).Next?
    ensures Busy(s, HandleToken(s, disconnected, vanished, ev).s)
  {
    assert Busy(s, s);
    hide AcceptPhase, ReadPhase, WritePhase, Busy;
    if ev.token in s.listeners && AcceptPhase(s, ev.acceptScript).Running? {
      AcceptIsBusy(s, ev.acceptScript);
    }
    if ev.token in s.connections && !ReadPhase(s, ev).Stops? {
      ReadIsBusy(s, ev);
      var s1 := ReadPhase(s, ev).s;
      if ev.token in s1.connections && !WritePhase(s1, ev).Stops? {
        WriteIsBusy(s1, ev);
        BusyThen(s, s1, WritePhase(s1, ev).s);
      }
    }
  }

  lemma {:induction false} BatchIsBusy(s: Tls, events: seq<PollEvent>)
    requires HandleBatch(s, events).Next?
    ensures Busy(s, HandleBatch(s, events).s)
  {
    hide HandleToken;
    if events != [] {
      BatchIsBusy(s, events[..|events| - 1]);
      var b := HandleBatch(s, events[..|events| - 1]);
      hide Busy;
      TokenIsBusy(b.s, b.disconnected, b.vanished, events[|events| - 1]);
      BusyThen(s, b.s, HandleBatch(s, events).s);
    }
  }

  /** A poll round tells Inactive exactly when there is neither a connection nor a listener, and then nothing else. */
  lemma PollTellsInactiveIff(s: Tls, batch: seq<PollEvent>)
    requires Step(s, Poll(batch)).Running?
    ensures var s' := Step(s, Poll(batch)).s;
            && s.out <= s'.out
            && (Inactive in s'.out[|s.out|..] <==> s.connections == map[] && s.listeners == {})
            && (Inactive in s'.out[|s.out|..] ==> s'.out == s.out + [Inactive])
  {
    if s.connections == map[] && s.listeners == {} {
      assert (s.out + [Inactive])[|s.out|..] == [Inactive];
    } else {
      BatchIsBusy(s, Polled(batch, s.registered.Keys));
      hide HandleBatch, Polled;
    }
  }

  // ---------------------------------------------------------------------------
  // Batches
  // ---------------------------------------------------------------------------

  lemma {:induction false} AllPolledIsHandled(batch: seq<PollEvent>, tokens: set<nat>)
    requires forall i :: 0 <= i < |batch| ==> batch[i].token in tokens
    ensures Polled(batch, tokens) == batch
  {
    if batch != [] {
      AllPolledIsHandled(batch[..|batch| - 1], tokens);
    }
  }

  /** A poll round of tokens poll knows: they are handled one after the other, from the first to the last, each in the
      state and with the disconnected ids the ones before it have left; the first assertion hit ends the round. */
  lemma PollHandlesInOrder(s: Tls, batch: seq<PollEvent>, k: nat)
    requires (s.connections != map[] || s.listeners != {}) && k < |batch|
    requires forall i :: 0 <= i < |batch| ==> batch[i].token in s.registered
    ensures HandleBatch(s, batch[..0]) == Next(s, {}, {})
    ensures HandleBatch(s, batch[..k + 1])
            == match HandleBatch(s, batch[..k])
               case Stopped(why) => Stopped(why)
               case Next(mid, disconnected, vanished) => HandleToken(mid, disconnected, vanished, batch[k])
    ensures Step(s, Poll(batch))
            == match HandleBatch(s, batch)
               case Stopped(why) => Halted(why)
               case Next(s1, _, _) => Running(s1)
  {
    AllPolledIsHandled(batch, s.registered.Keys);
    hide HandleToken, Polled;
    assert batch[..k + 1][..k] == batch[..k];
  }
}
