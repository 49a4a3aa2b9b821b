/**
 The transport object of src/transport/tls.rs: its read and write loops, `queue_data`, the opening of
 connections and the batch loop, which update the fields in place, each proved equal to a step of the machine.
 */
module TlsObject {
  import opened Bytes
  import opened TransportTypes
  import opened Ids
  import opened TlsModel
  import opened TlsLibrary
  import opened TlsProofs
  import opened TlsOutcomes

  datatype ReadConnectionResult =
    | ReadOk(data: bytes)
    | ReadConnected(data: bytes)
    | ReadDisconnected(data: bytes)
    | ReadPanic(why: Halt)

  datatype WriteConnectionResult =
    | WriteOk
    | WriteConnected
    | WriteDisconnected
    | WriteConnectionFailed
    | WritePanic(why: Halt)

  class TlsTransport {
    var connections: map<nat, Connection>
    var listeners: set<nat>
    var nextId: ConnectionId
    var registered: map<nat, Interest>
    var spuriousWakeups: nat
    const maxReadSize: nat
    ghost var hist: map<nat, History>
    ghost var out: seq<TransportEvent>

    ghost function Model(): Tls
      reads this
    {
      Tls(connections, listeners, nextId, registered, spuriousWakeups, maxReadSize, hist, out)
    }

    ghost predicate Valid()
      reads this
    {
      Inv(Model())
    }

    constructor (maxReadSize: nat)
      ensures Model() == Init(maxReadSize) && Valid()
    {
      connections, listeners, nextId := map[], {}, ID_RANGE_START;
      registered, spuriousWakeups := map[WAKE_ID := READABLE], 0;
      this.maxReadSize := maxReadSize;
      hist, out := map[], [];
      new;
      InitInv(maxReadSize);
    }

    method Register(token: nat, interest: Interest)
      requires token !in registered
      modifies this`registered
      ensures registered == old(registered)[token := interest]
    {
      registered := registered[token := interest];
    }

    method Reregister(token: nat, interest: Interest)
      requires token in registered
      modifies this`registered
      ensures registered == old(registered)[token := interest]
    {
      registered := registered[token := interest];
    }

    method Deregister(token: nat)
      requires token in registered
      modifies this`registered
      ensures registered == old(registered) - {token}
    {
      registered := registered - {token};
    }

    method TrackSpuriousWakeup(isSpurious: bool) returns (halt: Option<Halt>)
      modifies this`spuriousWakeups
      ensures match Track(old(Model()), isSpurious)
              case Halted(why) => halt == Some(why)
              case Running(s) => halt == None && Model() == s
    {
      halt := None;
      if isSpurious {
        spuriousWakeups := spuriousWakeups + 1;
        if spuriousWakeups > MAX_SPURIOUS_WAKEUPS {
          halt := Some(TooManySpurious);
        }
      } else {
        spuriousWakeups := 0;
      }
    }

    method QueueData(id: nat, buf: bytes)
      requires Valid()
      modifies this
      ensures Model() == TlsModel.QueueData(old(Model()), id, buf) && Valid()
    {
      hide Inv;
      QueueDataInv(Model(), id, buf);
      RegistryHas(Model(), id);
      if id !in connections {
        return;
      }
      var conn := connections[id];
      if conn.sendBuf == [] {
        conn := conn.(sendBuf := buf);
      } else {
        conn := conn.(sendBuf := conn.sendBuf + buf);
      }
      assert conn.sendBuf == connections[id].sendBuf + buf;
      var oldInterest := conn.interest;
      conn := conn.(interest := Interest(oldInterest.readable, true));
      if oldInterest != conn.interest {
        Reregister(id, conn.interest);
      }
      connections := connections[id := conn];
      hist := hist[id := hist[id].(queued := hist[id].queued + [buf])];
      assert registered == old(registered)[id := conn.interest];
    }

    method CloseConnection(id: nat)
      requires Valid()
      modifies this
      ensures Running(Model()) == Step(old(Model()), Close(id)) && Valid()
    {
      hide Inv;
      RegistryHas(Model(), id);
      if id in connections {
        DropInv(Model(), id);
        connections := connections - {id};
        Deregister(id);
      }
    }

    method AdvanceConnectionId()
      requires HasFree(connections.Keys + listeners)
      modifies this`nextId
      ensures nextId == NextFree(connections.Keys + listeners, old(nextId))
    {
      var current := nextId;
      nextId := Ids.AdvanceConnectionId(connections.Keys, listeners, nextId);
      NextFreeIsUnique(connections.Keys + listeners, current, nextId, NextFree(connections.Keys + listeners, current));
    }

    /** Register a new connection under the prepared id and prepare the next one. */
    method InsertConnection(outgoing: bool)
      requires RegistryOk(Model()) && Room(Model(), 1)
      modifies this
      ensures Model() == AddConnection(old(Model()), outgoing)
    {
      hide RegistryOk, Room;
      ghost var before := Model();
      NextIsUnregistered(before);
      RoomLeavesFree(before);
      var conn := if outgoing then Connection(NotConnected, WRITABLE, []) else Connection(TcpConnected, READABLE, []);
      Register(nextId, conn.interest);
      hist := hist[nextId := History(outgoing, Past(before, nextId), [], [], [], HandedOver(before, nextId))];
      connections := connections[nextId := conn];
      assert connections.Keys + listeners == Live(before) + {before.nextId};
      AdvanceConnectionId();
    }

    /** `connect`; `ok` is whether there is a client configuration and the operating system yields a socket. With
        no id left the source would search forever, reported as a halt. */
    method Connect(ok: bool) returns (halt: Option<Halt>)
      requires Valid()
      modifies this
      ensures match Step(old(Model()), Op.Connect(ok))
              case Halted(why) => halt == Some(why)
              case Running(s) => halt == None && Model() == s && Valid()
    {
      hide Inv, AddConnection;
      if !ok {
        return None;
      }
      if |connections| + |listeners| + 1 >= ID_COUNT {
        return Some(IdsExhausted);
      }
      AddConnectionInv(Model(), true);
      InvRegistry(Model());
      InsertConnection(true);
      halt := None;
    }

    method Listen(ok: bool) returns (halt: Option<Halt>)
      requires Valid()
      modifies this
      ensures match Step(old(Model()), Op.Listen(ok))
              case Halted(why) => halt == Some(why)
              case Running(s) => halt == None && Model() == s && Valid()
    {
      hide Inv, AddListener;
      if !ok {
        return None;
      }
      if |connections| + |listeners| + 1 >= ID_COUNT {
        return Some(IdsExhausted);
      }
      ListenInv(Model());
      InvRegistry(Model());
      InsertListener();
      halt := None;
    }

    method InsertListener()
      requires RegistryOk(Model()) && Room(Model(), 1)
      modifies this
      ensures Model() == AddListener(old(Model()))
    {
      hide RegistryOk, Room;
      ghost var before := Model();
      NextIsUnregistered(before);
      RoomLeavesFree(before);
      Register(nextId, READABLE);
      listeners := listeners + {nextId};
      assert connections.Keys + listeners == Live(before) + {before.nextId};
      AdvanceConnectionId();
    }

    /** The accept loop, then one registration per accepted stream. */
    method AcceptConnections(id: nat, script: seq<AcceptResult>) returns (halt: Option<Halt>)
      requires Valid() && id in listeners
      modifies this
      ensures match AcceptPhase(old(Model()), script)
              case Halted(why) => halt == Some(why)
              case Running(s) => halt == None && Model() == s && Valid()
    {
      hide Inv, AcceptMany, AddConnection, Track, AcceptSummary;
      RegistryHas(Model(), id);
      halt := None;
      var accepted: Option<nat> := CollectStreams(script);
      if accepted.None? {
        listeners := listeners - {id};
        Deregister(id);
        return Some(AcceptFailed);
      }
      if |connections| + |listeners| + accepted.value >= ID_COUNT {
        return Some(IdsExhausted);
      }
      InsertAccepted(accepted.value);
      if Track(Model(), accepted.value == 0).Running? {
        TrackInv(Model(), accepted.value == 0);
      }
      halt := TrackSpuriousWakeup(accepted.value == 0);
    }

    /** One registration per accepted stream. */
    method InsertAccepted(n: nat)
      requires Valid() && Room(Model(), n)
      modifies this
      ensures Model() == AcceptMany(old(Model()), n) && Valid()
    {
      hide Inv, AcceptMany, AddConnection, Room;
      AcceptNone(Model(), n);
      for k := 0 to n
        invariant Room(old(Model()), k) && Model() == AcceptMany(old(Model()), k) && Valid()
      {
        RoomForLess(old(Model()), k + 1, n);
        AcceptManyInv(old(Model()), k + 1);
        AcceptOne(old(Model()), k + 1);
        InvRegistry(Model());
        InsertConnection(false);
      }
    }

    /** The end of both sides for a connection that survives: the pending bytes are put back, the interest is
        recomputed and, if it changed, registered again. `completed` is the end of the handshake. */
    method SettleConnection(id: nat, taken: Connection, sendBuf: bytes, oldInterest: Interest, handshaking: bool,
                   wantsWrite: bool)
      returns (completed: bool)
      requires !taken.status.NotConnected? && id in registered && registered[id] == oldInterest
      modifies this`connections, this`registered
      ensures var c' := Settle(taken.(sendBuf := sendBuf), handshaking, wantsWrite);
              && connections == old(connections)[id := c'] && registered == old(registered)[id := c'.interest]
              && completed == (c'.status != taken.status)
    {
      var conn := taken.(sendBuf := sendBuf, interest := READABLE);
      completed := false;
      if conn.status.TcpConnected? {
        if handshaking {
          if wantsWrite {
            conn := conn.(interest := READ_WRITE);
          }
        } else {
          conn := conn.(status := TlsConnected);
          completed := true;
          if wantsWrite || conn.sendBuf != [] {
            conn := conn.(interest := READ_WRITE);
          }
        }
      } else if wantsWrite || conn.sendBuf != [] {
        conn := conn.(interest := READ_WRITE);
      }
      connections := connections[id := conn];
      if oldInterest != conn.interest {
        Reregister(id, conn.interest);
      }
      assert registered == old(registered)[id := conn.interest];
    }

    // -------------------------------------------------------------------------
    // Reading
    // -------------------------------------------------------------------------

    /** The read loop: encrypted bytes from the socket, then the TLS packets, then a slice of plaintext. */
    static method ReadLoop(script: seq<ReadPass>, maxReadSize: nat)
      returns (data: bytes, disconnect: bool, spurious: bool)
      ensures data == Given(script, maxReadSize) && (disconnect <==> Ended(script, maxReadSize))
      ensures spurious <==> !ReadMoves(script, maxReadSize)
    {
      hide Given, Ended;
      var recvBuf: bytes := [];
      var recvPos, i, done := 0, 0, false;
      disconnect, spurious := false, true;
      NothingGiven(maxReadSize);
      assert script[0..] == script && [] + Given(script, maxReadSize) == Given(script, maxReadSize);
      while i < |script| && !done
        invariant i <= |script| && recvPos <= |recvBuf| && (disconnect ==> done)
        invariant !done ==>
                    && recvBuf[..recvPos] + Given(script[i..], maxReadSize) == Given(script, maxReadSize)
                    && (Ended(script[i..], maxReadSize) <==> Ended(script, maxReadSize))
                    && (if i == 0 then spurious else !spurious && recvPos > 0)
        invariant done ==>
                    && recvBuf[..recvPos] == Given(script, maxReadSize) && (disconnect <==> Ended(script, maxReadSize))
                    && (spurious <==> !ReadMoves(script, maxReadSize))
      {
        var pass := script[i];
        GivenStep(script[i..], maxReadSize);
        assert script[i..][1..] == script[i + 1..];
        ghost var got := recvBuf[..recvPos];
        assert got + [] == got;
        if pass.socket.EndOfStream? || pass.socket.ReadError? {
          disconnect, done := true, true;
        } else {
          if pass.socket.Encrypted? {
            spurious := false;
          }
          if !pass.packetsOk {
            disconnect, done := true, true;
          } else {
            recvBuf := recvBuf[..recvPos] + seq(maxReadSize, j => 0);
            assert recvBuf[..recvPos] == got;
            match pass.reader {
              case Plain(answer) =>
                var size := Min(|answer|, maxReadSize);
                if size == 0 {
                  done := true;
                } else {
                  recvBuf := recvBuf[..recvPos] + answer[..size] + recvBuf[recvPos + size..];
                  recvPos := recvPos + size;
                  spurious := false;
                  assert recvBuf[..recvPos] == got + answer[..size];
                  assert got + (answer[..size] + Given(script[i + 1..], maxReadSize))
                         == got + answer[..size] + Given(script[i + 1..], maxReadSize);
                }
              case PlainWouldBlock =>
                done := true;
              case PlainError =>
                disconnect, done := true, true;
            }
          }
        }
        i := i + 1;
      }
      if !done {
        assert script[i..] == [] && recvBuf[..recvPos] + [] == recvBuf[..recvPos];
      }
      data := recvBuf[..recvPos];
    }

    /** `read_connection`. A connection that disconnects during its handshake is removed and reported as fine. */
    method ReadConnection(ev: PollEvent) returns (r: ReadConnectionResult)
      requires Valid() && ev.token in connections && ev.readable
      modifies this
      ensures var (s, id) := (old(Model()), ev.token);
              var data := ReadSummary(ev.readScript, maxReadSize).data;
              match ReadPhase(s, ev)
              case Stops(why) => r == ReadPanic(why)
              case Leaves(s') => r == ReadDisconnected(data) && Emit(EmitData(Model(), id, data), Disconnected(id)) == s'
              case Vanishes(s') => r == ReadOk([]) && Model() == s'
              case Stays(s') =>
                if old(connections[id]).status.TcpConnected? && !ev.handshakingAfterRead
                then r == ReadConnected(data) && Emit(EmitData(Model(), id, data), Connected(id)) == s'
                else r == ReadOk(data) && EmitData(Model(), id, data) == s'
      ensures out == old(out)
    {
      hide Inv, ReadSummary, Given, Ended, ReadMoves, Emit, EmitData, Track;
      var id := ev.token;
      ReadIsGiven(ev.readScript, maxReadSize);
      RegistryHas(Model(), id);
      var conn := connections[id];
      if conn.status.NotConnected? {
        return ReadPanic(ReadBeforeConnected);
      }
      var oldInterest := conn.interest;
      var recvBuf, disconnect, spurious := ReadLoop(ev.readScript, maxReadSize);
      if disconnect {
        Deregister(id);
        connections := connections - {id};
        if conn.status.TcpConnected? {
          r := if recvBuf != [] then ReadPanic(DataBeforeHandshake) else ReadOk(recvBuf);
        } else {
          hist := hist[id := hist[id].(received := hist[id].received + Given(ev.readScript, maxReadSize))];
          r := ReadDisconnected(recvBuf);
        }
      } else {
        if conn.status.TcpConnected? && ev.handshakingAfterRead && recvBuf != [] {
          return ReadPanic(DataBeforeHandshake);
        }
        var completed := SettleConnection(id, conn, conn.sendBuf, oldInterest, ev.handshakingAfterRead,
                                          ev.wantsWriteAfterRead);
        r := if completed then ReadConnected(recvBuf) else ReadOk(recvBuf);
        var halt := TrackSpuriousWakeup(spurious);
        r := if halt.Some? then ReadPanic(halt.value) else r;
        hist := hist[id := hist[id].(received := hist[id].received + Given(ev.readScript, maxReadSize))];
      }
    }

    // -------------------------------------------------------------------------
    // Writing
    // -------------------------------------------------------------------------

    /** The write loop: plaintext to the TLS library once the handshake is complete, then encrypted bytes to
        the socket. It advances by what the library takes, `taken`. */
    static method WriteLoop(script: seq<WritePass>, sendBuf: bytes, tlsConnected: bool)
      returns (sendPos: nat, failed: bool, spurious: bool, ghost taken: bytes)
      ensures var offered := if tlsConnected then sendBuf else [];
              && taken == Taken(script, offered) && taken <= sendBuf && sendPos == |taken|
              && (failed <==> Broken(script, offered)) && (spurious <==> !WriteMoves(script, offered))
    {
      hide Taken, Broken, WriteMoves, Reached;
      sendPos, failed, spurious, taken := 0, false, true, [];
      var i, done := 0, false;
      ghost var offered: bytes := if tlsConnected then sendBuf else [];
      ghost var rest := offered;
      NothingTaken(offered);
      ReachedFirst(script, offered);
      assert sendBuf[0..] == sendBuf;
      while i < |script| && !done
        invariant i <= |script| && sendPos <= |sendBuf| && taken == sendBuf[..sendPos]
        invariant rest == if tlsConnected then sendBuf[sendPos..] else []
        invariant !done ==> !failed && Reached(script, offered, i, taken, rest)
        invariant done ==> taken == Taken(script, offered) && (failed <==> Broken(script, offered))
        invariant if i == 0 then spurious && !done && rest == offered else spurious <==> !WriteMoves(script, offered)
        invariant i > 0 && spurious ==> done
      {
        var pass := script[i];
        ghost var now := Accepted(pass, rest);
        ReachedNext(script, offered, i, taken, rest);
        FirstPassMoves(script, offered);
        assert rest != [] <==> sendPos < |sendBuf| && tlsConnected;
        assert taken + [] == taken;
        if sendPos < |sendBuf| && tlsConnected && pass.writer.WriterError? {
          failed, done := true, true;
        } else {
          if sendPos < |sendBuf| && tlsConnected && pass.writer.Took? {
            var size := Min(pass.writer.count, |sendBuf| - sendPos);
            assert now == sendBuf[sendPos..][..size];
            if size != 0 {
              sendPos := sendPos + size;
              spurious := false;
            }
          }
          taken, rest := taken + now, rest[|now|..];
          match pass.socket {
            case WroteEncrypted => spurious := false;
            case WriteError => failed, done := true, true;
            case _ => done := true;
          }
        }
        i := i + 1;
      }
      if !done {
        ReachedEnd(script, offered, taken, rest);
      }
    }

    /** `write_connection`. The pending bytes are taken out of the connection for the loop and put back after. */
    method WriteConnection(ev: PollEvent) returns (r: WriteConnectionResult)
      requires Valid() && ev.token in connections && ev.writable
      modifies this
      ensures var (s, id) := (old(Model()), ev.token);
              match WritePhase(s, ev)
              case Stops(why) => r == WritePanic(why)
              case Vanishes(_) => false
              case Leaves(s') =>
                || (r == WriteConnectionFailed && Emit(Model(), ConnectionFailed(id)) == s')
                || (r == WriteDisconnected && Emit(Model(), Disconnected(id)) == s')
              case Stays(s') =>
                if r == WriteConnected then Emit(Model(), Connected(id)) == s' else r == WriteOk && Model() == s'
      ensures out == old(out)
    {
      hide Inv, WritePhase, Taken, Broken, WriteMoves, Emit, Settle, Settled;
      var id := ev.token;
      RegistryHas(Model(), id);
      WriteIs(Model(), ev);
      var conn := connections[id];
      var oldInterest := conn.interest;
      var spurious := true;
      if conn.status.NotConnected? {
        if ev.socketError {
          Deregister(id);
          connections := connections - {id};
          return WriteConnectionFailed;
        }
        conn := conn.(status := TcpConnected);
        spurious := false;
      }
      var sendBuf := conn.sendBuf;
      conn := conn.(sendBuf := []);
      var sendPos, failed, idle;
      ghost var taken;
      sendPos, failed, idle, taken := WriteLoop(ev.writeScript, sendBuf, conn.status.TlsConnected?);
      spurious := spurious && idle;
      hist := hist[id := hist[id].(plaintext := hist[id].plaintext + taken)];
      if failed {
        Deregister(id);
        connections := connections - {id};
        return if conn.status.TcpConnected? then WriteConnectionFailed else WriteDisconnected;
      }
      SettleIsSettled(conn.(sendBuf := sendBuf[sendPos..]), ev.handshakingAfterWrite, ev.wantsWriteAfterWrite);
      SettledWhenConnecting(old(connections[id]).status, sendBuf[sendPos..], ev.handshakingAfterWrite,
                            ev.wantsWriteAfterWrite);
      var completed := SettleConnection(id, conn, sendBuf[sendPos..], oldInterest, ev.handshakingAfterWrite,
                                        ev.wantsWriteAfterWrite);
      r := if completed then WriteConnected else WriteOk;
      var halt := TrackSpuriousWakeup(spurious);
      r := if halt.Some? then WritePanic(halt.value) else r;
    }

    // -------------------------------------------------------------------------
    // The event loop; `events` is what the call will return, `base` what earlier calls did
    // -------------------------------------------------------------------------

    method Push(events: seq<TransportEvent>, e: TransportEvent, ghost base: seq<TransportEvent>)
      returns (pushed: seq<TransportEvent>)
      requires out == base + events
      modifies this`out, this`hist
      ensures Model() == Emit(old(Model()), e) && out == base + pushed
    {
      pushed := events + [e];
      out := out + [e];
      if !e.Inactive? && e.id in hist {
        hist := hist[e.id := hist[e.id].(events := hist[e.id].events + [e])];
      }
      assert out == base + pushed;
    }

    method PushData(events: seq<TransportEvent>, id: nat, data: bytes, ghost base: seq<TransportEvent>)
      returns (pushed: seq<TransportEvent>)
      requires out == base + events
      modifies this`out, this`hist
      ensures Model() == EmitData(old(Model()), id, data) && out == base + pushed
    {
      pushed := events;
      if data != [] {
        pushed := Push(events, Data(id, data), base);
      }
    }

    /** A readable token. Only a Disconnected result says that the connection is gone. */
    method HandleReadable(ev: PollEvent, events: seq<TransportEvent>, ghost base: seq<TransportEvent>)
      returns (pushed: seq<TransportEvent>, gone: bool, halt: Option<Halt>)
      requires Valid() && ev.token in connections && out == base + events
      modifies this
      ensures match ReadPhase(old(Model()), ev)
              case Stops(why) => halt == Some(why)
              case Leaves(s) => halt == None && gone && Model() == s
              case Vanishes(s) => halt == None && !gone && Model() == s && ev.token !in connections
              case Stays(s) => halt == None && !gone && Model() == s && ev.token in connections
      ensures halt == None ==> Valid() && out == base + pushed
    {
      if !ReadPhase(Model(), ev).Stops? {
        ReadPhaseInv(Model(), ev);
      }
      ReadPhaseKeys(Model(), ev);
      NoDataNoEvent();
      hide Inv, EmitData, Emit;
      pushed, gone, halt := events, false, None;
      if ev.readable {
        hide ReadPhase;
        var r := ReadConnection(ev);
        match r {
          case ReadOk(data) =>
            pushed := PushData(events, ev.token, data, base);
          case ReadConnected(data) =>
            pushed := PushData(events, ev.token, data, base);
            pushed := Push(pushed, Connected(ev.token), base);
          case ReadDisconnected(data) =>
            pushed := PushData(events, ev.token, data, base);
            pushed := Push(pushed, Disconnected(ev.token), base);
            gone := true;
          case ReadPanic(why) =>
            halt := Some(why);
        }
      }
    }

    method HandleWritable(ev: PollEvent, events: seq<TransportEvent>, ghost base: seq<TransportEvent>)
      returns (pushed: seq<TransportEvent>, gone: bool, halt: Option<Halt>)
      requires Valid() && ev.token in connections && out == base + events
      modifies this
      ensures match WritePhase(old(Model()), ev)
              case Stops(why) => halt == Some(why)
              case Vanishes(_) => false
              case Leaves(s) => halt == None && gone && Model() == s
              case Stays(s) => halt == None && !gone && Model() == s
      ensures halt == None ==> Valid() && out == base + pushed
    {
      if !WritePhase(Model(), ev).Stops? {
        WritePhaseInv(Model(), ev);
      }
      hide Inv, Emit;
      pushed, gone, halt := events, false, None;
      if ev.writable {
        hide WritePhase;
        var r := WriteConnection(ev);
        match r {
          case WriteOk =>
          case WriteConnected =>
            pushed := Push(events, Connected(ev.token), base);
          case WriteDisconnected =>
            pushed := Push(events, Disconnected(ev.token), base);
            gone := true;
          case WriteConnectionFailed =>
            pushed := Push(events, ConnectionFailed(ev.token), base);
            gone := true;
          case WritePanic(why) =>
            halt := Some(why);
        }
      }
    }

    /** The body of the batch loop, with its cleanup assertion and the `expect` of the write side as halts. */
    method HandleToken(ev: PollEvent, disconnectedIds: set<nat>, ghost vanished: set<nat>,
                       events: seq<TransportEvent>, ghost base: seq<TransportEvent>)
      returns (pushed: seq<TransportEvent>, disconnected: set<nat>, ghost gone: set<nat>, halt: Option<Halt>)
      requires Valid() && out == base + events
      modifies this
      ensures match TlsModel.HandleToken(old(Model()), disconnectedIds, vanished, ev)
              case Stopped(why) => halt == Some(why)
              case Next(s, d, v) =>
                && halt == None && Model() == s && disconnected == d && gone == v && out == base + pushed
                && Valid()
    {
      hide Inv, ReadPhase, WritePhase, AcceptPhase;
      var id := ev.token;
      pushed, disconnected, gone, halt := events, disconnectedIds, vanished, None;
      if id == WAKE_ID {
        return;
      } else if id in listeners {
        AcceptKeepsOut(Model(), ev.acceptScript);
        halt := AcceptConnections(id, ev.acceptScript);
        gone := vanished - connections.Keys;
      } else if id in disconnectedIds {
        return;
      } else {
        if id !in connections {
          halt := Some(MissingConnection);
          return;
        }
        if !ev.readable && !ev.writable {
          halt := Some(NoReadiness);
          return;
        }
        ReadPhaseKeys(Model(), ev);
        var leaves;
        pushed, leaves, halt := HandleReadable(ev, events, base);
        if halt.Some? {
          return;
        }
        if !leaves && ev.writable && id !in connections {
          halt := Some(MissingConnection);
          return;
        }
        if leaves {
          disconnected := disconnectedIds + {id};
        } else if id !in connections {
          gone := vanished + {id};
        } else {
          pushed, leaves, halt := HandleWritable(ev, pushed, base);
          if halt == None && leaves {
            disconnected := disconnectedIds + {id};
          }
        }
      }
    }

    /** One poll round: nothing to do means Inactive; otherwise the polled batch is handled in order. */
    method HandlePoll(batch: seq<PollEvent>) returns (events: seq<TransportEvent>, halt: Option<Halt>)
      requires Valid()
      modifies this
      ensures match Step(old(Model()), Poll(batch))
              case Halted(why) => halt == Some(why)
              case Running(s) => halt == None && Model() == s && Valid() && out == old(out) + events
    {
      hide Inv, TlsModel.HandleToken, Polled;
      events, halt := [], None;
      ghost var base := out;
      assert out == base + events;
      if connections == map[] && listeners == {} {
        InactiveInv(Model());
        events := Push(events, Inactive, base);
        return;
      }
      var polled := Polled(batch, registered.Keys);
      var disconnectedIds: set<nat> := {};
      ghost var vanished: set<nat> := {};
      for i := 0 to |polled|
        invariant halt == None && Valid() && out == base + events
        invariant HandleBatch(old(Model()), polled[..i]) == Next(Model(), disconnectedIds, vanished)
      {
        assert polled[..i + 1][..i] == polled[..i];
        events, disconnectedIds, vanished, halt := HandleToken(polled[i], disconnectedIds, vanished, events, base);
        if halt.Some? {
          BatchStops(old(Model()), polled, i + 1);
          return;
        }
      }
      assert polled[..|polled|] == polled;
    }
  }

  lemma NoDataNoEvent()
    ensures forall s: Tls, id: nat :: EmitData(s, id, []) == s
  {
  }

  lemma {:induction false} AcceptManyKeepsOut(s: Tls, n: nat)
    requires Room(s, n)
    ensures AcceptMany(s, n).out == s.out
  {
    hide NextAfterBirth;
    if n > 0 {
      AcceptManyKeepsOut(s, n - 1);
    }
  }

  lemma AcceptKeepsOut(s: Tls, script: seq<AcceptResult>)
    ensures AcceptPhase(s, script).Running? ==> AcceptPhase(s, script).s.out == s.out
  {
    hide AcceptMany, AcceptSummary;
    if AcceptPhase(s, script).Running? {
      AcceptManyKeepsOut(s, AcceptSummary(script).value);
    }
  }

  lemma AcceptNone(s: Tls, n: nat)
    requires Room(s, n)
    ensures Room(s, 0) && AcceptMany(s, 0) == s
  {
  }

  lemma RoomForLess(s: Tls, k: nat, n: nat)
    requires k <= n && Room(s, n)
    ensures Room(s, k)
  {
  }

  lemma AcceptOne(s: Tls, n: nat)
    requires n > 0 && Room(s, n)
    ensures Room(AcceptMany(s, n - 1), 1) && AcceptMany(s, n) == AddConnection(AcceptMany(s, n - 1), false)
  {
    hide NextAfterBirth;
  }

  lemma NextIsUnregistered(s: Tls)
    requires RegistryOk(s)
    ensures s.nextId !in s.registered
  {
  }

  lemma InvRegistry(s: Tls)
    requires Inv(s)
    ensures RegistryOk(s)
  {
  }

  lemma {:induction false} BatchStops(s: Tls, events: seq<PollEvent>, k: nat)
    requires k <= |events| && HandleBatch(s, events[..k]).Stopped?
    ensures HandleBatch(s, events) == HandleBatch(s, events[..k])
    decreases |events|
  {
    if k == |events| {
      assert events[..k] == events;
    } else {
      assert events[..|events| - 1][..k] == events[..k];
      BatchStops(s, events[..|events| - 1], k);
    }
  }

  lemma RegistryHas(s: Tls, id: nat)
    requires Inv(s)
    ensures id in s.connections ==>
              && id in s.registered && id in s.hist && s.registered[id] == s.connections[id].interest
              && id !in s.listeners && id != WAKE_ID
    ensures id in s.listeners ==> id in s.registered
  {
    hide IdOk, OutputOk;
  }
}
