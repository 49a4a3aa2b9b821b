/** The main results about the TCP transport, for every run: any sequence of calls and poll rounds, with any
    answers of the kernel, from a new transport. */
module TcpTheorems {
  import opened Bytes
  import opened TransportTypes
  import opened Ids
  import opened TcpModel
  import opened TcpSockets
  import opened TcpProofs
  import opened TcpOutcomes
  import opened TcpSending

  /** The state a run ends in. */
  ghost predicate Reaches(maxRead: nat, ops: seq<Op>, s: Tcp) {
    Exec(Init(maxRead), ops) == Running(s)
  }

  lemma ReachableInv(maxRead: nat, ops: seq<Op>, s: Tcp)
    requires Reaches(maxRead, ops, s)
    ensures Inv(s, {})
  {
    InitInv(maxRead);
    ExecInv(Init(maxRead), ops);
  }

  // ---------------------------------------------------------------------------
  // Connection cleanup is bug-free
  // ---------------------------------------------------------------------------

  /** The assertion "was it properly removed after disconnect?" and the two `expect`s behind it never fire. */
  lemma CleanupAssertNeverFires(maxRead: nat, ops: seq<Op>)
    ensures Exec(Init(maxRead), ops) != Halted(MissingConnection)
  {
    InitInv(maxRead);
    ExecInv(Init(maxRead), ops);
  }

  /** Between calls poll knows exactly the waker, the live listeners and the live connections; and in the
      middle of a batch every polled token that is none of these is in `disconnected_ids`, however often
      tokens repeat. */
  lemma CleanupAccount(maxRead: nat, ops: seq<Op>, s: Tcp, batch: seq<PollEvent>, k: nat)
    requires Reaches(maxRead, ops, s) && k <= |Polled(batch, s.registered.Keys)|
    ensures s.registered.Keys == {WAKE_ID} + s.listeners + s.connections.Keys
    ensures match HandleBatch(s, Polled(batch, s.registered.Keys)[..k])
            case Stopped(_) => true
            case Next(mid, disconnected) =>
              && s.registered.Keys <= {WAKE_ID} + mid.listeners + mid.connections.Keys + disconnected
              && mid.registered.Keys == {WAKE_ID} + mid.listeners + mid.connections.Keys
  {
    ReachableInv(maxRead, ops, s);
    HandleBatchInv(s, Polled(batch, s.registered.Keys)[..k]);
    hide LivesOk, IdsOk, OutputOk;
  }

  // ---------------------------------------------------------------------------
  // Event grammar
  // ---------------------------------------------------------------------------

  /** Per connection id, the events handed out are those of past lives followed by the current one. The
      current one is a lifetime word, or the exceptional Disconnected; and it is still open exactly as the
      connection's own state says. */
  lemma EventGrammar(maxRead: nat, ops: seq<Op>, s: Tcp, id: nat)
    requires Reaches(maxRead, ops, s)
    ensures id !in s.hist ==> EventsOf(s.out, id) == []
    ensures id in s.hist ==>
              var h := s.hist[id];
              && EventsOf(s.out, id) == Told(h.before) + h.events && PastLives(id, h.before)
              && LifeOk(id, ThisLife(h))
              && (id in s.connections ==>
                    if s.connections[id].connected then OpenWord(id, h.events) else h.outgoing && h.events == [])
  {
    ReachableInv(maxRead, ops, s);
    hide RegistryOk, IdsOk;
    assert OutputAt(s, id);
    if id in s.hist {
      assert IdOk(s, id, false);
    }
  }

  /** Handling a writable event leaves the connection's life inside the documented grammar. */
  ghost predicate KeepsGrammar(s: Tcp, ev: PollEvent)
    requires ev.token in s.connections
  {
    var w := WritePhase(s, ev);
    !w.Stops? && ev.token in w.s.hist && LifetimeWord(ev.token, true, w.s.hist[ev.token].events)
  }

  /** Handling a writable connection that is still connecting ends in a life outside the documented grammar
      exactly when the connection succeeds and the write of earlier queued bytes then fails. */
  lemma LostBeforeConnectedIff(s: Tcp, ev: PollEvent)
    requires Inv(s, {}) && ev.token in s.connections && !s.connections[ev.token].connected && ev.writable
    ensures !KeepsGrammar(s, ev)
            <==> !ev.socketError && Broken(ev.writeScript, s.connections[ev.token].sendBuf)
  {
    var id := ev.token;
    assert IdOk(s, id, false);
    assert s.hist[id].events == [];
    hide Inv, IdOk;
    WriteTells(s, ev);
    hide WritePhase, Taken, Broken;
    assert [] + [Connected(id)] == [Connected(id)];
    assert [] + [Disconnected(id)] == [Disconnected(id)];
    assert [] + [ConnectionFailed(id)] == [ConnectionFailed(id)];
  }

  /** The kernel can force such a life exactly on a connection that has bytes queued before it is
      connected: a caller that waits for Connected before sending is safe from it. */
  lemma WaitingForConnectedIsSafe(s: Tcp, id: nat)
    requires Inv(s, {}) && id in s.connections && !s.connections[id].connected
    ensures s.connections[id].sendBuf == [] <==>
            forall ev: PollEvent | ev.token == id && ev.writable :: KeepsGrammar(s, ev)
  {
    hide KeepsGrammar, Inv;
    forall ev: PollEvent | ev.token == id && ev.writable
      ensures s.connections[id].sendBuf == [] ==> KeepsGrammar(s, ev)
    {
      LostBeforeConnectedIff(s, ev);
    }
    if s.connections[id].sendBuf != [] {
      var ev := PollEvent(id, false, true, [], [], false, [WriteError]);
      assert Broken(ev.writeScript, s.connections[id].sendBuf);
      LostBeforeConnectedIff(s, ev);
      assert ev.token == id && ev.writable;
    }
  }

  lemma PollOne(s: Tcp, ev: PollEvent)
    requires s.connections != map[] && ev.token in s.registered
    ensures PollRound(s, [ev]) == match HandleToken(s, {}, ev)
                                  case Stopped(why) => Halted(why)
                                  case Next(s1, _) => Running(s1)
  {
    hide HandleToken;
    assert [ev][..0] == [];
    assert Polled([ev], s.registered.Keys) == [] + [ev] == [ev];
    assert HandleBatch(s, []) == Next(s, {});
  }

  /** A run of this kind: connect, send one byte, and the first write is refused. */
  lemma LostBeforeConnectedHappens()
    ensures var run := [Call(Connect(true)), Call(SendTo(1000, [7])),
                        Poll([PollEvent(1000, false, true, [], [], false, [WriteError])])];
            var r := Exec(Init(1), run);
            r.Running? && r.s.out == [Disconnected(1000)]
  {
    hide NextAfterBirth, PollRound, Exec, HandleToken, Multicast;
    var ev := PollEvent(1000, false, true, [], [], false, [WriteError]);
    var (connect, send, poll) := (Call(Connect(true)), Call(SendTo(1000, [7])), Poll([ev]));
    ExecNothing(Init(1));
    var s1 := AddConnection(Init(1), true, Connection(false, WRITABLE, []));
    ExecSnoc(Init(1), [], connect);
    assert [] + [connect] == [connect];
    var s2 := Multicast(s1, multiset{1000}, [7]);
    ExecSnoc(Init(1), [connect], send);
    assert [connect] + [send] == [connect, send];
    ExecSnoc(Init(1), [connect, send], poll);
    assert [connect, send] + [poll] == [connect, send, poll];
    SendWhileConnecting(s1, 1000, [7]);
    LoseConnecting(s2, ev);
  }

  lemma SendWhileConnecting(s: Tcp, id: nat, data: bytes)
    requires s.connections == map[id := Connection(false, WRITABLE, [])] && id in s.registered && id in s.hist
    ensures var s' := Multicast(s, multiset{id}, data);
            && s'.connections == map[id := Connection(false, READ_WRITE, data)] && s'.listeners == s.listeners
            && id in s'.registered && id in s'.hist && s'.out == s.out
  {
    MulticastOne(s, id, data);
    hide Multicast;
    assert [] + data == data;
  }

  lemma LoseConnecting(s: Tcp, ev: PollEvent)
    requires s.connections == map[1000 := Connection(false, READ_WRITE, [7])]
    requires s.listeners == {} && 1000 in s.registered && 1000 in s.hist
    requires ev == PollEvent(1000, false, true, [], [], false, [WriteError])
    ensures PollRound(s, [ev]).Running? && PollRound(s, [ev]).s.out == s.out + [Disconnected(1000)]
  {
    assert 1000 in s.connections;
    PollOne(s, ev);
    hide PollRound;
    assert WriteSummary(ev.writeScript, 1) == WriteIo(0, true);
  }

  /** The assertion that a readable connection is connected: a poll that reports only registered interest can
      make it fail exactly on a connection that is still connecting and has had data queued. */
  lemma ReadBeforeConnectedIff(maxRead: nat, ops: seq<Op>, s: Tcp, id: nat)
    requires Reaches(maxRead, ops, s) && id in s.connections
    ensures id in s.registered && id in s.hist
    ensures (exists ev: PollEvent ::
               && ev.token == id && (ev.readable ==> s.registered[id].readable)
               && HandleToken(s, {}, ev) == Stopped(ReadBeforeConnected))
            <==> !s.connections[id].connected && s.hist[id].queued != []
  {
    ReachableInv(maxRead, ops, s);
    assert IdOk(s, id, false);
    assert s.connections[id].connected || (s.registered[id].readable <==> s.hist[id].queued != []);
    assert id in s.hist && id in s.registered && id != WAKE_ID && id !in s.listeners;
    hide *;
    ReadHalts(s, id);
  }

  lemma ReadHalts(s: Tcp, id: nat)
    requires id in s.connections && id in s.registered && id != WAKE_ID && id !in s.listeners
    ensures (exists ev: PollEvent ::
               && ev.token == id && (ev.readable ==> s.registered[id].readable)
               && HandleToken(s, {}, ev) == Stopped(ReadBeforeConnected))
            <==> !s.connections[id].connected && s.registered[id].readable
  {
    forall ev: PollEvent | ev.token == id
      ensures HandleToken(s, {}, ev) == Stopped(ReadBeforeConnected) ==> ev.readable && !s.connections[id].connected
    {
      hide ReadSummary, WriteConnection;
    }
    if !s.connections[id].connected && s.registered[id].readable {
      var ev := PollEvent(id, true, false, [], [], false, []);
      assert HandleToken(s, {}, ev) == Stopped(ReadBeforeConnected);
    }
  }

  // ---------------------------------------------------------------------------
  // Bytes, wakeups, ids
  // ---------------------------------------------------------------------------

  /** The bytes the socket took followed by the bytes pending are all the bytes queued, and in every life of an
      id, past or present, what the socket took is the first part of what was queued. */
  lemma OutgoingByteConservation(maxRead: nat, ops: seq<Op>, s: Tcp, id: nat, k: nat)
    requires Reaches(maxRead, ops, s) && id in s.hist && k < |Lives(s, id)|
    ensures id in s.connections ==> s.hist[id].written + s.connections[id].sendBuf == Flatten(s.hist[id].queued)
    ensures Lives(s, id)[k].written <= Flatten(Lives(s, id)[k].queued)
  {
    ReachableInv(maxRead, ops, s);
    assert IdOk(s, id, false);
  }

  /** In every life of an id, past or present, the Data events told carry exactly the bytes the socket handed
      over, those of the last reading before the peer closed included. */
  lemma IncomingByteConservation(maxRead: nat, ops: seq<Op>, s: Tcp, id: nat, k: nat)
    requires Reaches(maxRead, ops, s) && id in s.hist && k < |Lives(s, id)|
    ensures Received(Lives(s, id)[k].events) == Lives(s, id)[k].received
    ensures Received(s.hist[id].events) == s.hist[id].received
  {
    ReachableInv(maxRead, ops, s);
    assert IdOk(s, id, false);
  }

  /** Poll holds the interest the connection stores, a connection with pending bytes asks for WRITABLE, and
      an established one always asks for READABLE. */
  lemma NoLostWakeup(maxRead: nat, ops: seq<Op>, s: Tcp, id: nat)
    requires Reaches(maxRead, ops, s) && id in s.connections
    ensures id in s.registered && s.registered[id] == s.connections[id].interest
    ensures s.connections[id].sendBuf != [] ==> s.registered[id].writable
    ensures if s.connections[id].connected then s.registered[id].readable else s.registered[id].writable
  {
    ReachableInv(maxRead, ops, s);
    assert IdOk(s, id, false);
  }

  /** The id prepared for the next connection or listener is in the range, is not the waker's and is free;
      connections and listeners never share one. */
  lemma IdAllocation(maxRead: nat, ops: seq<Op>, s: Tcp)
    requires Reaches(maxRead, ops, s)
    ensures ID_RANGE_START <= s.nextId <= USIZE_MAX && s.nextId != WAKE_ID
    ensures s.nextId !in s.connections && s.nextId !in s.listeners
    ensures s.connections.Keys !! s.listeners && WAKE_ID !in s.connections && WAKE_ID !in s.listeners
  {
    ReachableInv(maxRead, ops, s);
  }

  // ---------------------------------------------------------------------------
  // Opening
  // ---------------------------------------------------------------------------

  /** A granted connect or listen: the prepared id, free until now, is registered, for WRITABLE or for READABLE, and
      becomes a connection that is connecting, in a life of its own, or a listener; the next id is prepared, and
      everything else is left alone. A refused one changes nothing. */
  lemma OpenExactness(s: Tcp, request: Request, id: nat)
    requires (request.Connect? || request.Listen?) && Inv(s, {})
    ensures match Apply(s, request)
            case Halted(why) => why == IdsExhausted && request.ok && |s.connections| + |s.listeners| + 1 >= ID_COUNT
            case Running(s') =>
              if !request.ok then s' == s
              else
                && s'.out == s.out && s'.spurious == s.spurious && |s.connections| + |s.listeners| + 1 < ID_COUNT
                && IsNextFree(Live(s) + {s.nextId}, s.nextId, s'.nextId)
                && if id != s.nextId then Untouched(s, s', id)
                   else if request.Connect? then
                     && id !in Live(s) && id in s'.connections && s'.connections[id] == Connection(false, WRITABLE, [])
                     && id in s'.registered && s'.registered[id] == WRITABLE && id !in s'.listeners
                     && id in s'.hist && s'.hist[id] == History(true, Lives(s, id), [], [], [], [])
                   else
                     && id !in Live(s) && id in s'.listeners && id in s'.registered && s'.registered[id] == READABLE
                     && SameId(s, s', id)
  {
    PreparedIsFree(s);
    hide Inv, Lives, AddConnection, AddListener, Live;
    if request.ok && Room(s, 1) {
      ConnectAdds(s, id);
      ListenAdds(s, id);
    }
  }

  lemma PreparedIsFree(s: Tcp)
    requires Inv(s, {})
    ensures s.nextId !in Live(s)
  {
  }

  lemma ConnectAdds(s: Tcp, id: nat)
    requires Room(s, 1) && s.nextId !in s.connections && s.nextId !in s.listeners
    ensures var c := Connection(false, WRITABLE, []);
            var s' := AddConnection(s, true, c);
            && s'.out == s.out && s'.spurious == s.spurious && IsNextFree(Live(s) + {s.nextId}, s.nextId, s'.nextId)
            && if id != s.nextId then Untouched(s, s', id)
               else
                 && id in s'.connections && s'.connections[id] == c && id !in s'.listeners
                 && id in s'.registered && s'.registered[id] == WRITABLE
                 && id in s'.hist && s'.hist[id] == History(true, Lives(s, id), [], [], [], [])
  {
    NextIsFirstFree(s);
    hide NextAfterBirth, Lives, IsNextFree, Room, Live, Untouched;
    assert AddConnection(s, true, Connection(false, WRITABLE, [])).nextId == NextAfterBirth(s);
    AddChanges(s, true, Connection(false, WRITABLE, []));
    hide AddConnection;
    if id != s.nextId {
      AddLeavesRest(s, true, Connection(false, WRITABLE, []), id);
    }
  }

  lemma ListenAdds(s: Tcp, id: nat)
    requires Room(s, 1) && s.nextId !in s.connections && s.nextId !in s.listeners
    ensures var s' := AddListener(s);
            && s'.out == s.out && s'.spurious == s.spurious && IsNextFree(Live(s) + {s.nextId}, s.nextId, s'.nextId)
            && if id != s.nextId then Untouched(s, s', id)
               else
                 && id in s'.listeners && id in s'.registered && s'.registered[id] == READABLE && SameId(s, s', id)
  {
    NextIsFirstFree(s);
    hide NextAfterBirth, IsNextFree, Room, Live;
    assert AddListener(s).nextId == NextAfterBirth(s);
    ListenChanges(s);
    ListenTouches(s, id);
    hide AddListener, Untouched, SameId;
  }

  lemma ListenChanges(s: Tcp)
    requires Room(s, 1)
    ensures var s1 := AddListener(s);
            && s1.listeners == s.listeners + {s.nextId} && s1.registered == s.registered[s.nextId := READABLE]
            && s1.connections == s.connections && s1.hist == s.hist && s1.out == s.out && s1.spurious == s.spurious
  {
    hide NextAfterBirth, Room;
  }

  lemma ListenTouches(s: Tcp, id: nat)
    requires Room(s, 1)
    ensures SameId(s, AddListener(s), id)
    ensures id != s.nextId ==> Untouched(s, AddListener(s), id)
  {
    ListenChanges(s);
    hide AddListener, Room;
  }

  lemma NextIsFirstFree(s: Tcp)
    requires Room(s, 1)
    ensures IsNextFree(Live(s) + {s.nextId}, s.nextId, NextAfterBirth(s))
  {
    RoomLeavesFree(s);
  }

  // ---------------------------------------------------------------------------
  // Sending
  // ---------------------------------------------------------------------------

  /** The connections a send addresses, with multiplicity. */
  function Targets(s: Tcp, request: Request, id: nat): nat {
    if id !in s.connections then 0
    else
      match request
      case SendTo(to, _) => if id == to then 1 else 0
      case SendToMany(ids, _) => multiset(ids)[id]
      case Broadcast(_) => 1
      case BroadcastExcept(_, exceptId) => if id == exceptId then 0 else 1
      case BroadcastExceptMany(_, exceptIds) => if id in exceptIds then 0 else 1
      case _ => 0
  }

  predicate Sends(request: Request) {
    request.SendTo? || request.SendToMany? || request.Broadcast? || request.BroadcastExcept?
    || request.BroadcastExceptMany?
  }

  /** All five ways to send: the data is appended once per occurrence to each addressed connection, which then
      asks for WRITABLE; unknown ids are ignored and everything else is left alone. */
  lemma MulticastExactness(s: Tcp, request: Request, id: nat)
    requires Sends(request) && Inv(s, {})
    ensures var n := Targets(s, request, id);
            var s' := Apply(s, request).s;
            && Apply(s, request).Running? && s'.out == s.out && s'.connections.Keys == s.connections.Keys
            && (id in s.connections ==>
                  && s'.connections[id].sendBuf == s.connections[id].sendBuf + Flatten(Repeat(request.data, n))
                  && s'.connections[id].connected == s.connections[id].connected
                  && s'.connections[id].interest == (if n == 0 then s.connections[id].interest else READ_WRITE)
                  && s'.hist[id] == s.hist[id].(queued := s.hist[id].queued + Repeat(request.data, n)))
            && s'.listeners == s.listeners && s'.hist.Keys == s.hist.Keys && s'.nextId == s.nextId
            && (id in s.hist && id !in s.connections ==> s'.hist[id] == s.hist[id])
  {
    hide RegistryOk, OutputOk, IdOk;
    assert Flatten(Repeat(request.data, 0)) == [];
    assert Repeat(request.data, 0) == [];
  }

  // ---------------------------------------------------------------------------
  // Closing
  // ---------------------------------------------------------------------------

  predicate Closes(request: Request) {
    request.CloseConnection? || request.CloseAllConnections? || request.CloseListener? || request.CloseAllListeners?
    || request.CloseAll?
  }

  predicate ClosesConnection(request: Request, id: nat) {
    request == CloseConnection(id) || request.CloseAllConnections? || request.CloseAll?
  }

  predicate ClosesListener(request: Request, id: nat) {
    request == CloseListener(id) || request.CloseAllListeners? || request.CloseAll?
  }

  /** The close family removes exactly what it names, from the transport and from poll, tells nothing, and leaves
      everything else alone. */
  lemma CloseExactness(s: Tcp, request: Request, id: nat)
    requires Closes(request) && Inv(s, {})
    ensures Apply(s, request).Running?
    ensures var s' := Apply(s, request).s;
            && s'.out == s.out && s'.hist == s.hist && s'.nextId == s.nextId
            && (id in s'.connections <==> id in s.connections && !ClosesConnection(request, id))
            && (id in s'.connections ==> s'.connections[id] == s.connections[id])
            && (id in s'.listeners <==> id in s.listeners && !ClosesListener(request, id))
            && (id in s'.registered <==> id == WAKE_ID || id in s'.listeners || id in s'.connections)
            && (id in s'.registered ==> s'.registered[id] == s.registered[id])
  {
    hide LivesOk, OutputOk;
  }

  // ---------------------------------------------------------------------------
  // Shutdown
  // ---------------------------------------------------------------------------

  /** Neither a connection nor a listener is granted. */
  predicate Quiet(ops: seq<Op>) {
    forall i :: 0 <= i < |ops| ==> ops[i] != Call(Connect(true)) && ops[i] != Call(Listen(true))
  }

  predicate Closed(s: Tcp) {
    s.connections == map[] && s.listeners == {}
  }

  /** One Inactive for each poll round. */
  function Inactives(ops: seq<Op>): seq<TransportEvent> {
    if ops == [] then []
    else Inactives(ops[..|ops| - 1]) + (if ops[|ops| - 1].Poll? then [Inactive] else [])
  }

  lemma NothingToSend(s: Tcp, targets: multiset<nat>, data: bytes)
    requires Closed(s)
    ensures Closed(Multicast(s, targets, data)) && Multicast(s, targets, data).out == s.out
  {
    assert Multicast(s, targets, data).connections.Keys == {};
  }

  lemma ClosedStep(s: Tcp, op: Op)
    requires Closed(s) && op != Call(Connect(true)) && op != Call(Listen(true))
    ensures Step(s, op).Running? && Closed(Step(s, op).s)
    ensures Step(s, op).s.out == s.out + (if op.Poll? then [Inactive] else [])
  {
    assert s.out + [] == s.out;
    match op {
      case Poll(_) =>
      case Call(request) =>
        forall targets, data {
          NothingToSend(s, targets, data);
        }
        hide Multicast;
    }
  }

  /** While the transport is closed and nothing is granted, whatever else is called, every poll round answers
      Inactive and nothing else. */
  lemma {:induction false} ClosedStaysClosed(s: Tcp, ops: seq<Op>)
    requires Closed(s) && Quiet(ops)
    ensures var r := Exec(s, ops); r.Running? && Closed(r.s) && r.s.out == s.out + Inactives(ops)
  {
    hide Step, Closed;
    if ops == [] {
      assert s.out + [] == s.out;
    } else {
      var init := ops[..|ops| - 1];
      ClosedStaysClosed(s, init);
      ClosedStep(Exec(s, init).s, ops[|ops| - 1]);
      assert s.out + Inactives(init) + [] == s.out + Inactives(init);
      assert s.out + Inactives(init) + [Inactive] == s.out + (Inactives(init) + [Inactive]);
    }
  }

  /** After `close_all`, and until a connect or a listen is granted: sends, closes and refused connects change
      nothing, and every poll round answers Inactive and nothing else. */
  lemma AfterCloseAllOnlyInactive(s: Tcp, ops: seq<Op>)
    requires Quiet(ops)
    ensures var closed := Apply(s, CloseAll).s;
            var r := Exec(closed, ops);
            r.Running? && r.s.connections == map[] && r.s.listeners == {} && r.s.out == s.out + Inactives(ops)
  {
    ClosedStaysClosed(Apply(s, CloseAll).s, ops);
  }
}
