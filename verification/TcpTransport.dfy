/**
 The transport object of src/transport/tcp.rs: the methods that update its fields in place, each proved equal
 to a step of the state machine. Registering with poll is a precondition-checked method, so that the
 `expect("Failed to register ...")` family is proved never to fail.
 */
module TcpObject {
  import opened Bytes
  import opened TransportTypes
  import opened Ids
  import opened TcpModel
  import opened TcpSockets
  import opened TcpProofs
  import opened TcpTheorems
  import opened TcpSending

  datatype ReadConnectionResult = ReadOk(data: bytes) | ReadDisconnected(data: bytes) | ReadPanic(why: Halt)

  datatype WriteConnectionResult = WriteResult(outcome: WriteOutcome) | WritePanic(why: Halt)

  /** What one turn of `fetch_events` meets: the requests queued by then, and what poll reports. */
  datatype Round = Round(requests: seq<Request>, batch: seq<PollEvent>)

  function Calls(requests: seq<Request>): seq<Op> {
    seq(|requests|, i requires 0 <= i < |requests| => Call(requests[i]))
  }

  function OpsOf(rounds: seq<Round>): seq<Op> {
    if rounds == [] then []
    else
      var last := rounds[|rounds| - 1];
      OpsOf(rounds[..|rounds| - 1]) + (Calls(last.requests) + [Poll(last.batch)])
  }

  /** No request of the rounds is granted a connection or a listener. */
  predicate QuietRounds(rounds: seq<Round>) {
    forall i :: 0 <= i < |rounds| ==> Quiet(Calls(rounds[i].requests))
  }

  /** A call of `fetch_events` that returns: it went through `rounds`, and the last of them is the first that
      told something. */
  ghost predicate Fetched(s: Tcp, rounds: seq<Round>, s': Tcp, events: seq<TransportEvent>) {
    && Exec(s, OpsOf(rounds)) == Running(s') && s'.out == s.out + events && events != []
    && forall k | 0 <= k < |rounds| :: ToldNothing(s, rounds, k)
  }

  ghost predicate ToldNothing(s: Tcp, rounds: seq<Round>, k: nat)
    requires k <= |rounds|
  {
    var r := Exec(s, OpsOf(rounds[..k])); r.Running? && r.s.out == s.out
  }

  lemma NothingYet(s: Tcp, rounds: seq<Round>, k: nat, s': Tcp)
    requires k <= |rounds| && Exec(s, OpsOf(rounds[..k])) == Running(s') && s'.out == s.out
    ensures ToldNothing(s, rounds, k)
  {
  }

  lemma QuietConcat(a: seq<Op>, b: seq<Op>)
    ensures Quiet(a + b) <==> Quiet(a) && Quiet(b)
  {
    assert forall i :: 0 <= i < |a| ==> (a + b)[i] == a[i];
    assert forall i :: 0 <= i < |b| ==> (a + b)[|a| + i] == b[i];
  }

  lemma {:induction false} InactivesConcat(a: seq<Op>, b: seq<Op>)
    ensures Inactives(a + b) == Inactives(a) + Inactives(b)
  {
    if b == [] {
      assert a + b == a;
    } else {
      assert (a + b)[..|a + b| - 1] == a + b[..|b| - 1];
      InactivesConcat(a, b[..|b| - 1]);
    }
  }

  lemma {:induction false} CallsTellNothing(requests: seq<Request>)
    ensures Inactives(Calls(requests)) == []
  {
    if requests != [] {
      var n := |requests| - 1;
      CallsTellNothing(requests[..n]);
      assert Calls(requests)[..n] == Calls(requests[..n]);
    }
  }

  /** Quiet rounds are quiet, and contain one poll each. */
  lemma {:induction false} QuietRoundsPoll(rounds: seq<Round>)
    requires QuietRounds(rounds)
    ensures Quiet(OpsOf(rounds)) && Inactives(OpsOf(rounds)) == seq(|rounds|, i => Inactive)
  {
    if rounds != [] {
      var (init, last) := (rounds[..|rounds| - 1], rounds[|rounds| - 1]);
      QuietRoundsPoll(init);
      CallsTellNothing(last.requests);
      QuietConcat(Calls(last.requests), [Poll(last.batch)]);
      QuietConcat(OpsOf(init), Calls(last.requests) + [Poll(last.batch)]);
      InactivesConcat(Calls(last.requests), [Poll(last.batch)]);
      InactivesConcat(OpsOf(init), Calls(last.requests) + [Poll(last.batch)]);
      assert [Poll(last.batch)][..0] == [];
      assert seq(|init|, i => Inactive) + [Inactive] == seq(|rounds|, i => Inactive);
    }
  }

  /** Rounds of a closed transport. */
  lemma ClosedRounds(s: Tcp, rounds: seq<Round>)
    requires Closed(s) && QuietRounds(rounds)
    ensures var r := Exec(s, OpsOf(rounds));
            r.Running? && Closed(r.s) && r.s.out == s.out + seq(|rounds|, i => Inactive)
  {
    QuietRoundsPoll(rounds);
    ClosedStaysClosed(s, OpsOf(rounds));
  }

  /** After `close_all`, until something is granted, a call of `fetch_events` returns in its first round, with
      exactly one Inactive. */
  lemma ClosedFetch(s: Tcp, rounds: seq<Round>, s': Tcp, events: seq<TransportEvent>)
    requires Closed(s) && QuietRounds(rounds) && Fetched(s, rounds, s', events)
    ensures |rounds| == 1 && events == [Inactive] && Closed(s')
  {
    hide Closed, QuietRounds;
    assert QuietRounds(rounds[..Min(1, |rounds|)]) by { QuietPrefix(rounds, Min(1, |rounds|)); }
    ClosedRounds(s, rounds);
    ClosedRounds(s, rounds[..Min(1, |rounds|)]);
    assert events == s'.out[|s.out|..] == seq(|rounds|, i => Inactive);
    assert |rounds| > 1 ==> ToldNothing(s, rounds, 1);
  }

  /** The rounds a call has used are those of a returned call, if it has told something. */
  lemma UsedRounds(s: Tcp, rounds: seq<Round>, used: nat, s': Tcp, events: seq<TransportEvent>)
    requires used <= |rounds| && Exec(s, OpsOf(rounds[..used])) == Running(s')
    requires s'.out == s.out + events && events != []
    requires forall k | 0 <= k < used :: ToldNothing(s, rounds, k)
    ensures Fetched(s, rounds[..used], s', events)
  {
    forall k | 0 <= k < used
      ensures ToldNothing(s, rounds[..used], k)
    {
      assert rounds[..used][..k] == rounds[..k] && ToldNothing(s, rounds, k);
    }
  }

  /** A call on a closed transport does not halt and does not stay in its loop. */
  lemma ClosedCall(s: Tcp, rounds: seq<Round>, used: nat, events: seq<TransportEvent>)
    requires Closed(s) && QuietRounds(rounds) && rounds != [] && used <= |rounds|
    requires forall k | 0 <= k < used :: ToldNothing(s, rounds, k)
    requires var r := Exec(s, OpsOf(rounds[..used]));
             r.Running? ==> r.s.out == s.out + events && (events != [] || used == |rounds|)
    ensures var r := Exec(s, OpsOf(rounds[..used]));
            r.Running? && Closed(r.s) && events == [Inactive] && used == 1
  {
    QuietPrefix(rounds, used);
    ClosedRounds(s, rounds[..used]);
    hide Closed, QuietRounds;
    var r := Exec(s, OpsOf(rounds[..used]));
    assert events == r.s.out[|s.out|..] == seq(used, i => Inactive);
    UsedRounds(s, rounds, used, r.s, events);
    ClosedFetch(s, rounds[..used], r.s, events);
  }

  lemma QuietPrefix(rounds: seq<Round>, k: nat)
    requires QuietRounds(rounds) && k <= |rounds|
    ensures QuietRounds(rounds[..k])
  {
  }

  class TcpTransport {
    var connections: map<nat, Connection>
    var listeners: set<nat>
    var nextId: ConnectionId
    var registered: map<nat, Interest>
    var spuriousWakeups: nat
    const maxReadSize: nat
    ghost var hist: map<nat, History>
    ghost var out: seq<TransportEvent>

    ghost function Model(): Tcp
      reads this
    {
      Tcp(connections, listeners, nextId, registered, spuriousWakeups, maxReadSize, hist, out)
    }

    ghost predicate Valid()
      reads this
    {
      Inv(Model(), {})
    }

    constructor (maxReadSize: nat)
      ensures Model() == Init(maxReadSize) && Valid()
    {
      connections, listeners, nextId := map[], {}, ID_RANGE_START;
      registered, spuriousWakeups := map[WAKE_ID := READABLE], 0;
      this.maxReadSize := maxReadSize;
      hist, out := map[], [];
      new;
      InitInv(maxReadSize);
    }

    // -------------------------------------------------------------------------
    // The poll registry
    // -------------------------------------------------------------------------

    method Register(token: nat, interest: Interest)
      requires token !in registered
      modifies this`registered
      ensures registered == old(registered)[token := interest]
    {
      registered := registered[token := interest];
    }

    method Reregister(token: nat, interest: Interest)
      requires token in registered
      modifies this`registered
      ensures registered == old(registered)[token := interest]
    {
      registered := registered[token := interest];
    }

    method Deregister(token: nat)
      requires token in registered
      modifies this`registered
      ensures registered == old(registered) - {token}
    {
      registered := registered - {token};
    }

    // -------------------------------------------------------------------------
    // Helpers
    // -------------------------------------------------------------------------

    method AdvanceConnectionId()
      requires HasFree(connections.Keys + listeners)
      modifies this`nextId
      ensures nextId == NextFree(connections.Keys + listeners, old(nextId))
    {
      var current := nextId;
      nextId := Ids.AdvanceConnectionId(connections.Keys, listeners, nextId);
      NextFreeIsUnique(connections.Keys + listeners, current, nextId, NextFree(connections.Keys + listeners, current));
    }

    method TrackSpuriousWakeup(isSpurious: bool) returns (halt: Option<Halt>)
      modifies this`spuriousWakeups
      ensures match Track(old(Model()), isSpurious)
              case Halted(why) => halt == Some(why)
              case Running(s) => halt == None && Model() == s
    {
      halt := None;
      if isSpurious {
        spuriousWakeups := spuriousWakeups + 1;
        if spuriousWakeups > MAX_SPURIOUS_WAKEUPS {
          halt := Some(TooManySpurious);
        }
      } else {
        spuriousWakeups := 0;
      }
    }

    method QueueData(id: nat, buf: bytes)
      requires Valid()
      modifies this
      ensures Model() == Multicast(old(Model()), multiset{id}, buf) && Valid()
    {
      hide Multicast, Inv;
      MulticastInv(Model(), multiset{id}, buf);
      RegistryHas(Model(), id);
      if id !in connections {
        MulticastAbsent(Model(), id, buf);
        return;
      }
      MulticastOne(Model(), id, buf);
      var conn := connections[id];
      if conn.sendBuf == [] {
        conn := conn.(sendBuf := buf);
      } else {
        conn := conn.(sendBuf := conn.sendBuf + buf);
      }
      assert conn.sendBuf == connections[id].sendBuf + buf;
      var oldInterest := conn.interest;
      conn := conn.(interest := READ_WRITE);
      if oldInterest != conn.interest {
        Reregister(id, conn.interest);
      }
      connections := connections[id := conn];
      hist := hist[id := hist[id].(queued := hist[id].queued + [buf])];
      assert registered == old(registered)[id := READ_WRITE];
    }

    // -------------------------------------------------------------------------
    // Connection management
    // -------------------------------------------------------------------------

    /** `connect`; `ok` is whether the operating system yields a socket. With no id left for the next
        connection the source would search forever, reported as a halt. */
    method Connect(ok: bool) returns (halt: Option<Halt>)
      requires Valid()
      modifies this
      ensures match Apply(old(Model()), Request.Connect(ok))
              case Halted(why) => halt == Some(why)
              case Running(s) => halt == None && Model() == s && Valid()
    {
      hide Inv;
      if !ok {
        return None;
      }
      if |connections| + |listeners| + 1 >= ID_COUNT {
        return Some(IdsExhausted);
      }
      AddConnectionInv(Model(), {}, true, Connection(false, WRITABLE, []));
      RegistryParts(Model());
      hide RegistryOk, IdsOk, AddConnection;
      InsertConnection(true, Connection(false, WRITABLE, []));
      halt := None;
    }

    /** Register a new connection under the prepared id and prepare the next one. */
    method InsertConnection(ghost outgoing: bool, conn: Connection)
      requires RegistryOk(Model()) && IdsOk(Model()) && Room(Model(), 1)
      modifies this
      ensures Model() == AddConnection(old(Model()), outgoing, conn)
    {
      hide RegistryOk, IdsOk, Room;
      ghost var before := Model();
      NextIdIsUnregistered(before);
      RoomLeavesFree(before);
      Register(nextId, conn.interest);
      hist := hist[nextId := History(outgoing, Lives(before, nextId), [], [], [], [])];
      connections := connections[nextId := conn];
      assert connections.Keys + listeners == Live(before) + {before.nextId};
      AdvanceConnectionId();
    }

    method Listen(ok: bool) returns (halt: Option<Halt>)
      requires Valid()
      modifies this
      ensures match Apply(old(Model()), Request.Listen(ok))
              case Halted(why) => halt == Some(why)
              case Running(s) => halt == None && Model() == s && Valid()
    {
      hide Inv;
      if !ok {
        return None;
      }
      if |connections| + |listeners| + 1 >= ID_COUNT {
        return Some(IdsExhausted);
      }
      AddListenerInv(Model());
      RegistryParts(Model());
      hide RegistryOk, IdsOk, AddListener;
      InsertListener();
      halt := None;
    }

    method InsertListener()
      requires RegistryOk(Model()) && IdsOk(Model()) && Room(Model(), 1)
      modifies this
      ensures Model() == AddListener(old(Model()))
    {
      hide RegistryOk, IdsOk, Room;
      ghost var before := Model();
      NextIdIsUnregistered(before);
      RoomLeavesFree(before);
      Register(nextId, READABLE);
      listeners := listeners + {nextId};
      assert connections.Keys + listeners == Live(before) + {before.nextId};
      AdvanceConnectionId();
    }

    method CloseConnection(id: nat)
      requires Valid()
      modifies this
      ensures Running(Model()) == Apply(old(Model()), Request.CloseConnection(id)) && Valid()
    {
      hide Inv;
      ApplyInv(Model(), Request.CloseConnection(id));
      RegistryHas(Model(), id);
      if id in connections {
        connections := connections - {id};
        Deregister(id);
      }
    }

    method CloseListener(id: nat)
      requires Valid()
      modifies this
      ensures Running(Model()) == Apply(old(Model()), Request.CloseListener(id)) && Valid()
    {
      hide Inv;
      ApplyInv(Model(), Request.CloseListener(id));
      RegistryHas(Model(), id);
      if id in listeners {
        listeners := listeners - {id};
        Deregister(id);
      }
    }

    method CloseAllConnections()
      requires Valid()
      modifies this`connections, this`registered
      ensures Model() == DropAll(old(Model())) && Valid()
    {
      DropAllInv(Model());
      RegistryKeys(Model());
      hide Inv;
      DrainConnections();
    }

    /** Removes the connections in whatever order the map yields them. */
    method DrainConnections()
      requires connections.Keys <= registered.Keys
      modifies this`connections, this`registered
      ensures connections == map[] && registered == old(registered) - old(connections).Keys
    {
      ghost var closed: set<nat> := {};
      assert registered - {} == registered;
      while connections != map[]
        invariant closed + connections.Keys == old(connections).Keys && closed !! connections.Keys
        invariant registered == old(registered) - closed
        invariant connections.Keys <= registered.Keys
        decreases connections.Keys
      {
        var id :| id in connections;
        MinusMinus(old(registered), closed, {id});
        connections := connections - {id};
        Deregister(id);
        closed := closed + {id};
      }
    }

    method CloseAllListeners()
      requires Valid()
      modifies this`listeners, this`registered
      ensures Model() == DropAllListeners(old(Model())) && Valid()
    {
      DropAllListenersInv(Model());
      RegistryKeys(Model());
      hide Inv;
      ghost var closed: set<nat> := {};
      assert registered - {} == registered;
      while listeners != {}
        invariant closed + listeners == old(listeners) && closed !! listeners
        invariant registered == old(registered) - closed
        invariant listeners <= registered.Keys
        decreases listeners
      {
        var id :| id in listeners;
        MinusMinus(old(registered), closed, {id});
        listeners := listeners - {id};
        Deregister(id);
        closed := closed + {id};
      }
    }

    method CloseAll()
      requires Valid()
      modifies this
      ensures Running(Model()) == Apply(old(Model()), Request.CloseAll) && Valid()
    {
      CloseAllListeners();
      CloseAllConnections();
    }

    // -------------------------------------------------------------------------
    // Sending
    // -------------------------------------------------------------------------

    method SendTo(toId: nat, buf: bytes)
      requires Valid()
      modifies this
      ensures Running(Model()) == Apply(old(Model()), Request.SendTo(toId, buf)) && Valid()
    {
      hide Multicast, Inv;
      QueueData(toId, buf);
    }

    /** `split_last`: a clone for all but the last id, the buffer itself for the last. */
    method SendToMany(toIds: seq<nat>, buf: bytes)
      requires Valid()
      modifies this
      ensures Model() == Multicast(old(Model()), multiset(toIds), buf) && Valid()
    {
      hide Multicast, Inv;
      MulticastNone(Model(), buf);
      if toIds != [] {
        var last := |toIds| - 1;
        for i := 0 to last
          invariant Model() == Multicast(old(Model()), multiset(toIds[..i]), buf) && Valid()
        {
          QueueData(toIds[i], buf);
          MulticastAdd(old(Model()), multiset(toIds[..i]), toIds[i], buf);
          assert toIds[..i + 1] == toIds[..i] + [toIds[i]];
        }
        QueueData(toIds[last], buf);
        MulticastAdd(old(Model()), multiset(toIds[..last]), toIds[last], buf);
        assert toIds == toIds[..last] + [toIds[last]];
      }
    }

    /** The keys of the connection map that `except` leaves, in whatever order the map yields them. */
    method CollectIds(except: set<nat>) returns (ids: seq<nat>)
      ensures multiset(ids) == multiset(connections.Keys - except)
    {
      var left := connections.Keys - except;
      ids := [];
      while left != {}
        invariant left <= connections.Keys - except
        invariant multiset(ids) == multiset(connections.Keys - except - left)
        decreases left
      {
        var id :| id in left;
        assert connections.Keys - except - (left - {id}) == (connections.Keys - except - left) + {id};
        ids := ids + [id];
        left := left - {id};
      }
      assert connections.Keys - except - left == connections.Keys - except;
    }

    method Broadcast(buf: bytes)
      requires Valid()
      modifies this
      ensures Running(Model()) == Apply(old(Model()), Request.Broadcast(buf)) && Valid()
    {
      hide Multicast, Inv;
      var toIds := CollectIds({});
      assert connections.Keys - {} == connections.Keys;
      SendToMany(toIds, buf);
    }

    method BroadcastExcept(buf: bytes, exceptId: nat)
      requires Valid()
      modifies this
      ensures Running(Model()) == Apply(old(Model()), Request.BroadcastExcept(buf, exceptId)) && Valid()
    {
      hide Multicast, Inv;
      var toIds := CollectIds({exceptId});
      SendToMany(toIds, buf);
    }

    method BroadcastExceptMany(buf: bytes, exceptIds: seq<nat>)
      requires Valid()
      modifies this
      ensures Running(Model()) == Apply(old(Model()), Request.BroadcastExceptMany(buf, exceptIds)) && Valid()
    {
      hide Multicast, Inv;
      var toIds := CollectIds(set id | id in exceptIds);
      SendToMany(toIds, buf);
    }

    // -------------------------------------------------------------------------
    // Connection I/O
    // -------------------------------------------------------------------------

    /** The accept loop, then one registration per accepted stream. */
    method AcceptConnections(id: nat, script: seq<AcceptResult>) returns (newConnIds: seq<nat>, halt: Option<Halt>)
      requires Valid() && id in listeners
      modifies this
      ensures match AcceptSummary(script)
              case None => halt == Some(AcceptFailed)
              case Some(n) =>
                if !Room(old(Model()), n) then halt == Some(IdsExhausted)
                else
                  var (s1, ids) := AcceptMany(old(Model()), n);
                  match Track(s1, n == 0)
                  case Halted(why) => halt == Some(why)
                  case Running(s2) => halt == None && Model() == s2 && newConnIds == ids
    {
      hide Inv, AcceptMany, AddConnection, Track;
      RegistryHas(Model(), id);
      newConnIds, halt := [], None;
      var accepted: Option<nat> := CollectStreams(script);
      if accepted.None? {
        listeners := listeners - {id};
        Deregister(id);
        return [], Some(AcceptFailed);
      }
      if |connections| + |listeners| + accepted.value >= ID_COUNT {
        return [], Some(IdsExhausted);
      }
      AcceptNone(Model());
      for k := 0 to accepted.value
        invariant (Model(), newConnIds) == AcceptMany(old(Model()), k)
      {
        AcceptManyInv(old(Model()), k);
        PendingRegistryParts(Model(), SetOf(newConnIds));
        AcceptOne(old(Model()), k + 1);
        newConnIds := newConnIds + [nextId];
        InsertConnection(false, Connection(true, READABLE, []));
      }
      halt := TrackSpuriousWakeup(accepted.value == 0);
    }

    /** The read loop: grow the buffer by a slice, let the socket fill it, keep what was filled. */
    static method ReadLoop(script: seq<ReadResult>, maxReadSize: nat) returns (data: bytes, disconnect: bool)
      ensures data == Given(script, maxReadSize) && (disconnect <==> Ended(script, maxReadSize))
    {
      hide Given, Ended;
      var recvBuf: bytes := [];
      var recvPos, i, done := 0, 0, false;
      disconnect := false;
      assert script[0..] == script && [] + Given(script, maxReadSize) == Given(script, maxReadSize);
      while i < |script| && !done
        invariant i <= |script| && recvPos <= |recvBuf| && (disconnect ==> done)
        invariant !done ==>
                    && recvBuf[..recvPos] + Given(script[i..], maxReadSize) == Given(script, maxReadSize)
                    && (Ended(script[i..], maxReadSize) <==> Ended(script, maxReadSize))
        invariant done ==>
                    recvBuf[..recvPos] == Given(script, maxReadSize) && (disconnect <==> Ended(script, maxReadSize))
      {
        GivenStep(script[i..], maxReadSize);
        assert script[i..][1..] == script[i + 1..];
        ghost var got := recvBuf[..recvPos];
        assert got + [] == got;
        recvBuf := recvBuf[..recvPos] + seq(maxReadSize, j => 0);
        assert recvBuf[..recvPos] == got;
        match script[i] {
          case Chunk(answer) =>
            var size := Min(|answer|, maxReadSize);
            if size == 0 {
              disconnect, done := true, true;
            } else {
              recvBuf := recvBuf[..recvPos] + answer[..size] + recvBuf[recvPos + size..];
              recvPos := recvPos + size;
              assert recvBuf[..recvPos] == got + answer[..size];
              assert got + (answer[..size] + Given(script[i + 1..], maxReadSize))
                     == got + answer[..size] + Given(script[i + 1..], maxReadSize);
            }
          case ReadWouldBlock =>
            done := true;
          case ReadError =>
            disconnect, done := true, true;
        }
        i := i + 1;
      }
      if !done {
        NothingGiven(maxReadSize);
        assert script[i..] == [] && recvBuf[..recvPos] + [] == recvBuf[..recvPos];
      }
      data := recvBuf[..recvPos];
    }

    method ReadConnection(id: nat, script: seq<ReadResult>) returns (r: ReadConnectionResult)
      requires Valid() && id in connections
      modifies this
      ensures if !old(connections[id]).connected then r == ReadPanic(ReadBeforeConnected)
              else
                var io := ReadSummary(script, maxReadSize);
                var given := Given(script, maxReadSize);
                if io.closed then
                  r == ReadDisconnected(io.data) && Model() == RecordReceived(Drop(old(Model()), id), id, given)
                else
                  match Track(old(Model()), io.data == [])
                  case Halted(why) => r == ReadPanic(why)
                  case Running(s) => r == ReadOk(io.data) && Model() == RecordReceived(s, id, given)
    {
      hide Inv, ReadSummary, Given, Ended;
      ReadIsGiven(script, maxReadSize);
      RegistryHas(Model(), id);
      if !connections[id].connected {
        return ReadPanic(ReadBeforeConnected);
      }
      var recvBuf, disconnect := ReadLoop(script, maxReadSize);
      hist := hist[id := hist[id].(received := hist[id].received + Given(script, maxReadSize))];
      if disconnect {
        Deregister(id);
        connections := connections - {id};
        r := ReadDisconnected(recvBuf);
      } else {
        var halt := TrackSpuriousWakeup(recvBuf == []);
        r := if halt.Some? then ReadPanic(halt.value) else ReadOk(recvBuf);
      }
    }

    /** The write loop over the pending bytes: it advances by what the socket takes, `taken`, and `drained` is
        reaching the end of the buffer. */
    static method WriteLoop(script: seq<WriteResult>, sendBuf: bytes)
      returns (sendPos: nat, failed: bool, drained: bool, ghost taken: bytes)
      ensures taken == Taken(script, sendBuf) && taken <= sendBuf && sendPos == |taken|
      ensures failed <==> Broken(script, sendBuf)
      ensures drained <==> sendPos == |sendBuf|
    {
      hide Taken, Broken;
      sendPos, failed, drained, taken := 0, false, false, [];
      var i, done := 0, false;
      assert script[0..] == script && sendBuf[0..] == sendBuf && [] + Taken(script, sendBuf) == Taken(script, sendBuf);
      while !done
        invariant i <= |script| && sendPos <= |sendBuf| && taken == sendBuf[..sendPos]
        invariant !done ==>
                    && taken + Taken(script[i..], sendBuf[sendPos..]) == Taken(script, sendBuf)
                    && (Broken(script[i..], sendBuf[sendPos..]) <==> Broken(script, sendBuf))
        invariant done ==> taken == Taken(script, sendBuf) && (failed <==> Broken(script, sendBuf))
        invariant (failed ==> done) && (drained ==> done && sendPos == |sendBuf|)
        invariant done && sendPos == |sendBuf| ==> drained
        decreases |script| - i, if done then 0 else 1
      {
        assert taken + [] == taken;
        if sendPos == |sendBuf| {
          TakenNothing(script[i..], sendBuf[sendPos..]);
          drained, done := true, true;
        } else if i == |script| {
          TakenNothing(script[i..], sendBuf[sendPos..]);
          done := true;
        } else {
          ghost var now := Accepted(script[i], sendBuf[sendPos..]);
          TakenStep(script[i..], sendBuf[sendPos..]);
          assert script[i..][1..] == script[i + 1..] && sendBuf[sendPos..][|now|..] == sendBuf[sendPos + |now|..];
          assert taken + (now + Taken(script[i + 1..], sendBuf[sendPos + |now|..]))
                 == taken + now + Taken(script[i + 1..], sendBuf[sendPos + |now|..]);
          taken := taken + now;
          match script[i] {
            case Wrote(count) =>
              var size := Min(count, |sendBuf| - sendPos);
              sendPos := sendPos + size;
              done := size == 0;
            case WriteWouldBlock =>
              done := true;
            case WriteError =>
              failed, done := true, true;
          }
          i := i + 1;
        }
      }
    }

    method WriteConnection(id: nat, socketError: bool, script: seq<WriteResult>) returns (r: WriteConnectionResult)
      requires Valid() && id in connections
      modifies this
      ensures var w := TcpModel.WriteConnection(old(Model()), id, socketError, script);
              if w.outcome != WriteOk then r == WriteResult(w.outcome) && Model() == w.s
              else
                match Track(w.s, w.sent == 0)
                case Halted(why) => r == WritePanic(why)
                case Running(s) => r == WriteResult(WriteOk) && Model() == s
    {
      hide Inv, WriteSummary, Taken, Broken;
      RegistryHas(Model(), id);
      var conn := connections[id];
      var (oldConnected, oldInterest) := (conn.connected, conn.interest);
      if !oldConnected {
        if socketError {
          Deregister(id);
          connections := connections - {id};
          return WriteResult(WriteConnectionFailed);
        }
        conn := conn.(connected := true, interest := READ_WRITE);
      }
      SentIsTaken(script, conn.sendBuf);
      ghost var taken;
      var sendPos, failed, drained;
      sendPos, failed, drained, taken := WriteLoop(script, conn.sendBuf);
      hist := hist[id := hist[id].(written := hist[id].written + taken)];
      if failed {
        Deregister(id);
        connections := connections - {id};
        return WriteResult(WriteDisconnected);
      }
      if drained {
        conn := conn.(interest := READABLE);
      }
      conn := conn.(sendBuf := conn.sendBuf[sendPos..]);
      connections := connections[id := conn];
      if oldInterest != conn.interest {
        Reregister(id, conn.interest);
      }
      assert registered == old(registered)[id := conn.interest];
      if !oldConnected && conn.connected {
        r := WriteResult(WriteConnected);
      } else {
        var halt := TrackSpuriousWakeup(sendPos == 0);
        r := if halt.Some? then WritePanic(halt.value) else WriteResult(WriteOk);
      }
    }

    // -------------------------------------------------------------------------
    // The event loop; `events` is what the call will return, `base` what earlier calls did
    // -------------------------------------------------------------------------

    /** Push an event for dispatch. */
    method Push(events: seq<TransportEvent>, e: TransportEvent, ghost base: seq<TransportEvent>)
      returns (pushed: seq<TransportEvent>)
      requires out == base + events
      modifies this`out, this`hist
      ensures Model() == Emit(old(Model()), e) && out == base + pushed
    {
      pushed := events + [e];
      out := out + [e];
      if !e.Inactive? && e.id in hist {
        hist := hist[e.id := hist[e.id].(events := hist[e.id].events + [e])];
      }
      assert out == base + pushed;
    }

    method PushData(events: seq<TransportEvent>, id: nat, data: bytes, ghost base: seq<TransportEvent>)
      returns (pushed: seq<TransportEvent>)
      requires out == base + events
      modifies this`out, this`hist
      ensures Model() == EmitData(old(Model()), id, data) && out == base + pushed
    {
      pushed := events;
      if data != [] {
        pushed := Push(events, Data(id, data), base);
      }
    }

    /** A readable token: its connection stays, or is gone (the `continue` of the source). */
    method HandleReadable(ev: PollEvent, events: seq<TransportEvent>, ghost base: seq<TransportEvent>)
      returns (pushed: seq<TransportEvent>, gone: bool, halt: Option<Halt>)
      requires Valid() && ev.token in connections && out == base + events
      modifies this
      ensures match ReadPhase(old(Model()), ev)
              case Stops(why) => halt == Some(why)
              case Leaves(s) => halt == None && gone && Model() == s
              case Stays(s) => halt == None && !gone && Model() == s
      ensures halt == None ==> Valid() && out == base + pushed && (gone || ev.token in connections)
    {
      hide Inv, ReadSummary, Given, EmitData, RecordReceived, Emit, Drop, Track;
      if !ReadPhase(Model(), ev).Stops? {
        ReadPhaseInv(Model(), ev);
      }
      ReadKeepsOut(Model(), ev.token, Given(ev.readScript, maxReadSize));
      pushed, gone, halt := events, false, None;
      if ev.readable {
        var r := ReadConnection(ev.token, ev.readScript);
        match r {
          case ReadOk(data) =>
            pushed := PushData(events, ev.token, data, base);
          case ReadDisconnected(data) =>
            pushed := PushData(events, ev.token, data, base);
            pushed := Push(pushed, Disconnected(ev.token), base);
            gone := true;
          case ReadPanic(why) =>
            halt := Some(why);
        }
      }
    }

    method HandleWritable(ev: PollEvent, events: seq<TransportEvent>, ghost base: seq<TransportEvent>)
      returns (pushed: seq<TransportEvent>, gone: bool, halt: Option<Halt>)
      requires Valid() && ev.token in connections && out == base + events
      modifies this
      ensures match WritePhase(old(Model()), ev)
              case Stops(why) => halt == Some(why)
              case Leaves(s) => halt == None && gone && Model() == s
              case Stays(s) => halt == None && !gone && Model() == s
      ensures halt == None ==> Valid() && out == base + pushed
    {
      hide Inv, TcpModel.WriteConnection, Emit, Track;
      if !WritePhase(Model(), ev).Stops? {
        WritePhaseInv(Model(), ev);
      }
      WriteKeepsOut(Model(), ev);
      pushed, gone, halt := events, false, None;
      if ev.writable {
        var r := WriteConnection(ev.token, ev.socketError, ev.writeScript);
        match r {
          case WriteResult(WriteOk) =>
          case WriteResult(WriteConnected) =>
            pushed := Push(events, Connected(ev.token), base);
          case WriteResult(WriteDisconnected) =>
            pushed := Push(events, Disconnected(ev.token), base);
            gone := true;
          case WriteResult(WriteConnectionFailed) =>
            pushed := Push(events, ConnectionFailed(ev.token), base);
            gone := true;
          case WritePanic(why) =>
            halt := Some(why);
        }
      }
    }

    method HandleAccept(ev: PollEvent, events: seq<TransportEvent>, ghost base: seq<TransportEvent>)
      returns (pushed: seq<TransportEvent>, halt: Option<Halt>)
      requires Valid() && ev.token in listeners && out == base + events
      modifies this
      ensures match AcceptPhase(old(Model()), ev.acceptScript)
              case Halted(why) => halt == Some(why)
              case Running(s) => halt == None && Model() == s && Valid() && out == base + pushed
    {
      hide Inv, AcceptMany, AcceptSummary, Emit;
      if AcceptPhase(Model(), ev.acceptScript).Running? {
        AcceptPhaseInv(Model(), ev.acceptScript);
      }
      AcceptKeepsOut(Model(), ev.acceptScript);
      var newConnIds;
      newConnIds, halt := AcceptConnections(ev.token, ev.acceptScript);
      pushed := events;
      if halt == None {
        ghost var accepted := Model();
        for i := 0 to |newConnIds|
          invariant Model() == EmitConnected(accepted, newConnIds[..i]) && out == base + pushed
        {
          assert newConnIds[..i + 1][..i] == newConnIds[..i];
          pushed := Push(pushed, Connected(newConnIds[i]), base);
        }
        assert newConnIds[..|newConnIds|] == newConnIds;
      }
    }

    /** The body of the batch loop. The cleanup assertion and the `expect`s are the `MissingConnection`
        results of the machine, which the tokens' account rules out. */
    method HandleToken(ev: PollEvent, disconnectedIds: set<nat>, events: seq<TransportEvent>,
                       ghost base: seq<TransportEvent>, ghost tokens: set<nat>)
      returns (pushed: seq<TransportEvent>, disconnected: set<nat>, halt: Option<Halt>)
      requires Valid() && out == base + events
      requires ev.token in tokens && Accounted(Model(), disconnectedIds, tokens)
      modifies this
      ensures match TcpModel.HandleToken(old(Model()), disconnectedIds, ev)
              case Stopped(why) => halt == Some(why)
              case Next(s, d) =>
                && halt == None && Model() == s && disconnected == d && out == base + pushed
                && Valid() && Accounted(s, d, tokens)
    {
      hide Inv, AcceptPhase, ReadPhase, WritePhase;
      HandleTokenInv(Model(), disconnectedIds, ev, tokens);
      var id := ev.token;
      pushed, disconnected, halt := events, disconnectedIds, None;
      if id == WAKE_ID {
        return;
      } else if id in listeners {
        pushed, halt := HandleAccept(ev, events, base);
      } else if id in disconnectedIds {
        return;
      } else {
        assert id in connections;
        if !ev.readable && !ev.writable {
          return events, disconnectedIds, Some(NoReadiness);
        }
        var gone;
        pushed, gone, halt := HandleReadable(ev, events, base);
        if halt == None && !gone {
          pushed, gone, halt := HandleWritable(ev, pushed, base);
        }
        if halt == None && gone {
          disconnected := disconnected + {id};
        }
      }
    }

    /** One poll round: nothing to do means Inactive; otherwise the polled batch is handled in order. */
    method HandlePoll(batch: seq<PollEvent>) returns (events: seq<TransportEvent>, halt: Option<Halt>)
      requires Valid()
      modifies this
      ensures match PollRound(old(Model()), batch)
              case Halted(why) => halt == Some(why)
              case Running(s) => halt == None && Model() == s && Valid() && out == old(out) + events
    {
      hide Inv, TcpModel.HandleToken, Polled;
      events, halt := [], None;
      ghost var base := out;
      assert out == base + events;
      if connections == map[] && listeners == {} {
        InactiveInv(Model());
        events := Push(events, Inactive, base);
        return;
      }
      var polled := Polled(batch, registered.Keys);
      ghost var tokens := registered.Keys;
      AllAccounted(Model());
      var disconnectedIds: set<nat> := {};
      for i := 0 to |polled|
        invariant halt == None && Valid() && out == base + events && Accounted(Model(), disconnectedIds, tokens)
        invariant HandleBatch(old(Model()), polled[..i]) == Next(Model(), disconnectedIds)
      {
        assert polled[..i + 1][..i] == polled[..i];
        events, disconnectedIds, halt := HandleToken(polled[i], disconnectedIds, events, base, tokens);
        if halt.Some? {
          BatchStops(old(Model()), polled, i + 1);
          return;
        }
      }
      assert polled[..|polled|] == polled;
    }

    /** `process_interface_requests`: every request is the direct call. */
    method ProcessInterfaceRequests(requests: seq<Request>) returns (halt: Option<Halt>)
      requires Valid()
      modifies this
      ensures match Exec(old(Model()), Calls(requests))
              case Halted(why) => halt == Some(why)
              case Running(s) => halt == None && Model() == s && Valid()
    {
      hide Inv, Apply;
      halt := None;
      ExecNothing(Model());
      for i := 0 to |requests|
        invariant halt == None && Valid() && Exec(old(Model()), Calls(requests[..i])) == Running(Model())
      {
        CallsSnoc(requests, i);
        ExecSnoc(old(Model()), Calls(requests[..i]), Call(requests[i]));
        halt := Dispatch(requests[i]);
        if halt.Some? {
          ExecStops(old(Model()), Calls(requests), i + 1);
          return;
        }
      }
      assert requests[..|requests|] == requests;
    }

    method Dispatch(request: Request) returns (halt: Option<Halt>)
      requires Valid()
      modifies this
      ensures match Apply(old(Model()), request)
              case Halted(why) => halt == Some(why)
              case Running(s) => halt == None && Model() == s && Valid()
    {
      hide Inv, Multicast, AddConnection, AddListener, DropAll, DropAllListeners, Drop, DropListener;
      halt := None;
      match request {
        case Connect(ok) => halt := Connect(ok);
        case Listen(ok) => halt := Listen(ok);
        case CloseConnection(id) => CloseConnection(id);
        case CloseAllConnections => CloseAllConnections();
        case CloseListener(id) => CloseListener(id);
        case CloseAllListeners => CloseAllListeners();
        case CloseAll => CloseAll();
        case SendTo(id, data) => SendTo(id, data);
        case SendToMany(ids, data) => SendToMany(ids, data);
        case Broadcast(data) => Broadcast(data);
        case BroadcastExcept(data, exceptId) => BroadcastExcept(data, exceptId);
        case BroadcastExceptMany(data, exceptIds) => BroadcastExceptMany(data, exceptIds);
      }
    }

    /** `fetch_events`: rounds of requests and polls until a round yields events. What other threads have
        requested and what poll reports, round by round, is the parameter; `used` rounds were taken. */
    method FetchEvents(rounds: seq<Round>) returns (events: seq<TransportEvent>, halt: Option<Halt>, used: nat)
      requires Valid()
      modifies this
      ensures used <= |rounds|
      ensures match Exec(old(Model()), OpsOf(rounds[..used]))
              case Halted(why) => halt == Some(why)
              case Running(s) =>
                && halt == None && Model() == s && Valid() && out == old(out) + events
                && (events != [] || used == |rounds|)
      ensures forall k | 0 <= k < used :: ToldNothing(old(Model()), rounds, k)
      ensures halt == None && events != [] ==> Fetched(old(Model()), rounds[..used], Model(), events)
      ensures Closed(old(Model())) && QuietRounds(rounds) && rounds != [] ==>
                halt == None && events == [Inactive] && used == 1 && Closed(Model())
    {
      hide Inv, PollRound, Apply, Closed, QuietRounds, ToldNothing, Fetched;
      events, halt, used := [], None, 0;
      ExecNothing(Model());
      assert out == old(out) + events;
      while events == [] && halt == None && used < |rounds|
        invariant used <= |rounds|
        invariant match Exec(old(Model()), OpsOf(rounds[..used]))
                  case Halted(why) => halt == Some(why)
                  case Running(s) => halt == None && Model() == s && Valid() && out == old(out) + events
        invariant forall k | 0 <= k < used :: ToldNothing(old(Model()), rounds, k)
        decreases |rounds| - used
      {
        ghost var before := Model();
        ghost var prefix := OpsOf(rounds[..used]);
        NothingYet(old(Model()), rounds, used, before);
        var round := rounds[used];
        used := used + 1;
        OpsOfSnoc(rounds, used);
        ExecConcat(old(Model()), prefix, Calls(round.requests) + [Poll(round.batch)]);
        ExecConcat(before, Calls(round.requests), [Poll(round.batch)]);
        halt := ProcessInterfaceRequests(round.requests);
        if halt == None {
          CallsKeepOut(before, round.requests);
          ExecOne(Model(), Poll(round.batch));
          events, halt := HandlePoll(round.batch);
        }
      }
      if halt == None && events != [] {
        UsedRounds(old(Model()), rounds, used, Model(), events);
      }
      if Closed(old(Model())) && QuietRounds(rounds) && rounds != [] {
        ClosedCall(old(Model()), rounds, used, events);
      }
    }
  }

  // ---------------------------------------------------------------------------
  // What the registry knows, for the preconditions above
  // ---------------------------------------------------------------------------

  lemma MinusMinus(m: map<nat, Interest>, a: set<nat>, b: set<nat>)
    ensures m - a - b == m - (a + b)
  {
    assert (m - a - b).Keys == (m - (a + b)).Keys;
  }

  lemma RegistryParts(s: Tcp)
    requires Inv(s, {})
    ensures RegistryOk(s) && IdsOk(s)
  {
  }

  lemma PendingRegistryParts(s: Tcp, pending: set<nat>)
    requires Inv(s, pending)
    ensures RegistryOk(s) && IdsOk(s)
  {
  }

  lemma AcceptNone(s: Tcp)
    requires Room(s, 0)
    ensures AcceptMany(s, 0) == (s, [])
  {
  }

  lemma AcceptOne(s: Tcp, n: nat)
    requires n > 0 && Room(s, n)
    ensures var (s1, ids) := AcceptMany(s, n - 1);
            Room(s1, 1) && AcceptMany(s, n) == (AddConnection(s1, false, Connection(true, READABLE, [])), ids + [s1.nextId])
  {
  }

  lemma AllAccounted(s: Tcp)
    requires Inv(s, {})
    ensures Accounted(s, {}, s.registered.Keys)
  {
    hide LivesOk, OutputOk, IdsOk;
  }

  lemma {:induction false} BatchStops(s: Tcp, events: seq<PollEvent>, k: nat)
    requires k <= |events| && HandleBatch(s, events[..k]).Stopped?
    ensures HandleBatch(s, events) == HandleBatch(s, events[..k])
    decreases |events|
  {
    if k == |events| {
      assert events[..k] == events;
    } else {
      assert events[..|events| - 1][..k] == events[..k];
      BatchStops(s, events[..|events| - 1], k);
    }
  }

  // What the steps before an event is pushed leave alone.

  lemma ReadKeepsOut(s: Tcp, id: nat, given: bytes)
    ensures RecordReceived(Drop(s, id), id, given).out == s.out
    ensures Track(s, true).Running? ==> RecordReceived(Track(s, true).s, id, given).out == s.out
    ensures Track(s, false).Running? ==> RecordReceived(Track(s, false).s, id, given).out == s.out
  {
  }

  lemma WriteKeepsOut(s: Tcp, ev: PollEvent)
    requires ev.token in s.connections
    ensures var w := TcpModel.WriteConnection(s, ev.token, ev.socketError, ev.writeScript);
            && w.s.out == s.out
            && (Track(w.s, w.sent == 0).Running? ==> Track(w.s, w.sent == 0).s.out == s.out)
  {
    hide WriteSummary, Taken;
  }

  lemma {:induction false} AcceptManyKeepsOut(s: Tcp, n: nat)
    requires Room(s, n)
    ensures AcceptMany(s, n).0.out == s.out
  {
    hide NextAfterBirth;
    if n > 0 {
      AcceptManyKeepsOut(s, n - 1);
    }
  }

  lemma AcceptKeepsOut(s: Tcp, script: seq<AcceptResult>)
    ensures match AcceptSummary(script)
            case None => true
            case Some(n) =>
              Room(s, n) ==>
                var s1 := AcceptMany(s, n).0;
                Track(s1, n == 0).Running? ==> Track(s1, n == 0).s.out == s.out
  {
    hide AcceptMany;
    match AcceptSummary(script)
    case None =>
    case Some(n) => if Room(s, n) { AcceptManyKeepsOut(s, n); }
  }

  // Calls and rounds as runs of the machine.

  lemma CallsSnoc(requests: seq<Request>, i: nat)
    requires i < |requests|
    ensures Calls(requests[..i + 1]) == Calls(requests[..i]) + [Call(requests[i])]
    ensures Calls(requests)[..i + 1] == Calls(requests[..i + 1])
  {
  }

  lemma OpsOfSnoc(rounds: seq<Round>, used: nat)
    requires 0 < used <= |rounds|
    ensures var last := rounds[used - 1];
            OpsOf(rounds[..used]) == OpsOf(rounds[..used - 1]) + (Calls(last.requests) + [Poll(last.batch)])
  {
    assert rounds[..used][..used - 1] == rounds[..used - 1];
  }

  /** Requests never emit events. */
  lemma {:induction false} CallsKeepOut(s: Tcp, requests: seq<Request>)
    ensures Exec(s, Calls(requests)).Running? ==> Exec(s, Calls(requests)).s.out == s.out
  {
    if requests != [] {
      var n := |requests| - 1;
      CallsKeepOut(s, requests[..n]);
      assert Calls(requests)[..n] == Calls(requests[..n]);
      if Exec(s, Calls(requests[..n])).Running? {
        ApplyKeepsOut(Exec(s, Calls(requests[..n])).s, requests[n]);
      }
    }
  }

  lemma ApplyKeepsOut(s: Tcp, request: Request)
    ensures Apply(s, request).Running? ==> Apply(s, request).s.out == s.out
  {
    hide NextAfterBirth, Repeat, QueuedOn;
  }

  lemma RegistryKeys(s: Tcp)
    requires Inv(s, {})
    ensures s.connections.Keys <= s.registered.Keys && s.listeners <= s.registered.Keys
  {
    hide LivesOk, OutputOk, IdsOk;
  }

  lemma RegistryHas(s: Tcp, id: nat)
    requires Inv(s, {})
    ensures id in s.connections ==>
              && id in s.registered && id in s.hist && s.registered[id] == s.connections[id].interest
              && id !in s.listeners && id != WAKE_ID
    ensures id in s.listeners ==> id in s.registered
  {
    hide IdOk, OutputOk;
  }

  lemma NextIdIsUnregistered(s: Tcp)
    requires RegistryOk(s) && IdsOk(s)
    ensures s.nextId !in s.registered
  {
  }
}
