/** The main results about the TLS transport, for every run: any sequence of calls and poll rounds, with any
    answers of the kernel and of the TLS library, from a new transport. */
module TlsTheorems {
  import opened Bytes
  import opened TransportTypes
  import opened Ids
  import opened TlsModel
  import opened TlsLibrary
  import opened TlsProofs
  import opened TlsOutcomes

  ghost predicate Reaches(maxRead: nat, ops: seq<Op>, s: Tls) {
    Exec(Init(maxRead), ops) == Running(s)
  }

  lemma ReachableInv(maxRead: nat, ops: seq<Op>, s: Tls)
    requires Reaches(maxRead, ops, s)
    ensures Inv(s)
  {
    InitInv(maxRead);
    ExecInv(Init(maxRead), ops);
  }

  // ---------------------------------------------------------------------------
  // Status and events
  // ---------------------------------------------------------------------------

  function Rank(status: ConnectionStatus): nat {
    match status
    case NotConnected => 0
    case TcpConnected => 1
    case TlsConnected => 2
  }

  /** What a phase tells of its connection, against the status before and after it. */
  ghost predicate Reports(s: Tls, id: nat, phase: Phase)
    requires id in s.connections
  {
    var status := s.connections[id].status;
    match phase
    case Stops(_) => true
    case Vanishes(s') => status.TcpConnected? && s'.out == s.out && id !in s'.connections
    case Leaves(s') =>
      && s.out <= s'.out && id !in s'.connections
      && var es := s'.out[|s.out|..];
         && Connected(id) !in es
         && (Disconnected(id) in es <==> status.TlsConnected?)
         && (ConnectionFailed(id) in es <==> !status.TlsConnected?)
    case Stays(s') =>
      && s.out <= s'.out && id in s'.connections && Rank(status) <= Rank(s'.connections[id].status)
      && var es := s'.out[|s.out|..];
         && (Connected(id) in es <==> !status.TlsConnected? && s'.connections[id].status.TlsConnected?)
         && Disconnected(id) !in es && ConnectionFailed(id) !in es
  }

  /** The status only moves from NotConnected to TcpConnected to TlsConnected. Whichever side completes the
      handshake reports Connected, exactly then; a connection that is lost reports Disconnected if it was
      TlsConnected and ConnectionFailed if not; and only a handshake that fails on the read side is silent. */
  lemma StatusMachine(s: Tls, ev: PollEvent)
    requires ev.token in s.connections && ev.token in s.hist
    ensures Reports(s, ev.token, ReadPhase(s, ev)) && Reports(s, ev.token, WritePhase(s, ev))
    ensures ReadPhase(s, ev).Vanishes? <==> FailsHandshake(s, ev)
    ensures !WritePhase(s, ev).Vanishes?
  {
    ReadReports(s, ev);
    WriteReports(s, ev);
    ReadPhaseKeys(s, ev);
    WritePhaseKeys(s, ev);
    hide *;
  }

  lemma SettleAdvances(c: Connection, handshaking: bool, wantsWrite: bool)
    requires !c.status.NotConnected?
    ensures var c' := Settle(c, handshaking, wantsWrite);
            && Rank(c.status) <= Rank(c'.status)
            && (c'.status != c.status <==> !c.status.TlsConnected? && c'.status.TlsConnected?)
  {
  }

  lemma ReadTellsConnected(id: nat, c: Connection, c': Connection, data: bytes)
    ensures var es := ReadTells(id, c, c', data);
            && (Connected(id) in es <==> c'.status != c.status)
            && Disconnected(id) !in es && ConnectionFailed(id) !in es
  {
  }

  lemma ReadStaysReports(s: Tls, ev: PollEvent)
    requires ev.token in s.connections && ev.token in s.hist && ev.readable && ReadPhase(s, ev).Stays?
    ensures Reports(s, ev.token, ReadPhase(s, ev))
  {
    ReadStaysTells(s, ev);
    var (c, s') := (s.connections[ev.token], ReadPhase(s, ev).s);
    SettleAdvances(c, ev.handshakingAfterRead, ev.wantsWriteAfterRead);
    hide ReadPhase, ReadSummary, Changes, Settle, Rank, ReadTells;
    var data := ReadSummary(ev.readScript, s.maxRead).data;
    var es := ReadTells(ev.token, c, s'.connections[ev.token], data);
    ReadTellsConnected(ev.token, c, s'.connections[ev.token], data);
    assert s'.out == s.out + es && s'.out[|s.out|..] == es;
    hide Tells;
  }

  lemma ReadReports(s: Tls, ev: PollEvent)
    requires ev.token in s.connections && ev.token in s.hist
    ensures Reports(s, ev.token, ReadPhase(s, ev))
  {
    if ReadPhase(s, ev).Leaves? {
      ReadLeavesReports(s, ev);
    } else if ev.readable && ReadPhase(s, ev).Stays? {
      ReadStaysReports(s, ev);
    } else {
      hide ReadSummary;
    }
  }

  lemma ReadLeavesReports(s: Tls, ev: PollEvent)
    requires ev.token in s.connections && ev.token in s.hist && ReadPhase(s, ev).Leaves?
    ensures Reports(s, ev.token, ReadPhase(s, ev))
  {
    var (id, data) := (ev.token, Given(ev.readScript, s.maxRead));
    ReadIsLeft(s, ev);
    ReadLeavesTells(s, id, data);
    hide ReadPhase, ReadLeft, Changes, Given, DataEvents;
    EndingTells(id, data);
    assert ReadPhase(s, ev).s.out[|s.out|..] == DataEvents(id, data) + [Disconnected(id)];
    hide Tells;
  }

  lemma EndingTells(id: nat, data: bytes)
    ensures var es := DataEvents(id, data) + [Disconnected(id)];
            Connected(id) !in es && Disconnected(id) in es && ConnectionFailed(id) !in es
  {
    var es := DataEvents(id, data) + [Disconnected(id)];
    assert es[|DataEvents(id, data)|] == Disconnected(id);
  }

  lemma ReadIsLeft(s: Tls, ev: PollEvent)
    requires ev.token in s.connections && ReadPhase(s, ev).Leaves?
    ensures s.connections[ev.token].status.TlsConnected?
    ensures ReadPhase(s, ev).s == ReadLeft(s, ev.token, Given(ev.readScript, s.maxRead))
  {
    ReadIsGiven(ev.readScript, s.maxRead);
    hide ReadSummary, Given, Ended, ReadMoves, EmitData, Emit, RecordReceived;
  }

  lemma WriteReports(s: Tls, ev: PollEvent)
    requires ev.token in s.connections && ev.token in s.hist
    ensures Reports(s, ev.token, WritePhase(s, ev))
  {
    WritePhaseKeys(s, ev);
    if ev.writable && WritePhase(s, ev).Stays? {
      WriteStaysTells(s, ev);
      hide WritePhase, WriteTaken;
    } else if WritePhase(s, ev).Leaves? {
      WriteEndsTells(s, ev);
      hide WritePhase, WriteTaken;
    } else {
      hide WriteSummary;
    }
  }

  /** Connected at most once; Disconnected at most once, last, and after Connected; ConnectionFailed alone. */
  ghost predicate WellTold(id: nat, es: seq<TransportEvent>) {
    && (forall i, j :: 0 <= i < |es| && 0 <= j < |es| && es[i].Connected? && es[j].Connected? ==> i == j)
    && (forall i :: 0 <= i < |es| && es[i].Disconnected? ==> i == |es| - 1 && Connected(id) in es)
    && (ConnectionFailed(id) in es ==> es == [ConnectionFailed(id)])
    && (forall i :: 0 <= i < |es| ==> About(es[i], id))
  }

  lemma WordsAreWellTold(id: nat, es: seq<TransportEvent>)
    requires LifetimeWord(id, es)
    ensures WellTold(id, es)
    ensures OpenWord(id, es) ==> Connected(id) in es
  {
  }

  /** Per connection id, the events handed out are those of past lives followed by those of the current one.
      Each life is well told, and a live connection has reported Connected exactly if it is TlsConnected. */
  lemma EventGrammar(maxRead: nat, ops: seq<Op>, s: Tls, id: nat)
    requires Reaches(maxRead, ops, s)
    ensures id !in s.hist ==> EventsOf(s.out, id) == []
    ensures id in s.hist ==>
              var h := s.hist[id];
              && EventsOf(s.out, id) == h.before + h.events && PastLives(id, h.before)
              && LifetimeWord(id, h.events) && WellTold(id, h.events)
              && (id in s.connections ==>
                    && (s.connections[id].status.TlsConnected? <==> Connected(id) in h.events)
                    && (!s.connections[id].status.TlsConnected? ==> h.events == []))
  {
    ReachableInv(maxRead, ops, s);
    hide RegistryOk, WellTold, PastLives;
    if id in s.hist {
      assert IdOk(s, id);
      WordsAreWellTold(id, s.hist[id].events);
    }
  }

  // ---------------------------------------------------------------------------
  // Plaintext and wakeups
  // ---------------------------------------------------------------------------

  /** A life in which plaintext was taken has reported Connected. */
  lemma TakenMeansConnected(id: nat, h: History)
    requires OpenWord(id, h.events) || DeadOk(id, h)
    ensures h.plaintext != [] ==> Connected(id) in h.events
  {
    var es := h.events;
    if es != [] && es != [ConnectionFailed(id)] && !OpenWord(id, es) {
      WordsAreWellTold(id, es[..|es| - 1]);
      hide OpenWord;
    }
  }

  /** The plaintext the TLS library took followed by the bytes pending are all the bytes queued, also those queued
      during the handshake; and none is taken before Connected has been reported. */
  lemma PlaintextConservation(maxRead: nat, ops: seq<Op>, s: Tls, id: nat)
    requires Reaches(maxRead, ops, s) && id in s.hist
    ensures id in s.connections ==> s.hist[id].plaintext + s.connections[id].sendBuf == Flatten(s.hist[id].queued)
    ensures s.hist[id].plaintext <= Flatten(s.hist[id].queued)
    ensures s.hist[id].plaintext != [] ==> Connected(id) in s.hist[id].events
  {
    ReachableInv(maxRead, ops, s);
    hide RegistryOk, OutputOk, PastLives, OpenWord, LifetimeWord;
    assert IdOk(s, id);
    hide Inv, LivesOk, Reaches;
    if OpenWord(id, s.hist[id].events) || DeadOk(id, s.hist[id]) {
      TakenMeansConnected(id, s.hist[id]);
    }
  }

  /** The Data events told of an id carry exactly the plaintext the TLS library handed over, in all its lives, that
      of the last reading before the peer closed included. */
  lemma IncomingConservation(maxRead: nat, ops: seq<Op>, s: Tls, id: nat)
    requires Reaches(maxRead, ops, s)
    ensures Received(EventsOf(s.out, id)) == if id in s.hist then s.hist[id].received else []
  {
    ReachableInv(maxRead, ops, s);
    hide RegistryOk, LivesOk;
    assert EventsOf(s.out, id) == Past(s, id);
  }

  /** Poll holds the interest the connection stores. An established connection with pending plaintext asks for
      WRITABLE, also if the plaintext was queued during the handshake; a connecting one asks for WRITABLE and
      nothing else, so that, unlike with TCP, no poll of registered interest finds it readable. */
  lemma NoLostWakeup(maxRead: nat, ops: seq<Op>, s: Tls, id: nat)
    requires Reaches(maxRead, ops, s) && id in s.connections
    ensures id in s.registered && s.registered[id] == s.connections[id].interest
    ensures s.connections[id].status.TlsConnected? && s.connections[id].sendBuf != [] ==> s.registered[id].writable
    ensures if s.connections[id].status.NotConnected? then s.registered[id] == WRITABLE else s.registered[id].readable
  {
    ReachableInv(maxRead, ops, s);
    assert IdOk(s, id);
  }

  /** After a write that the connection survives, the plaintext the TLS library took and what remains make up what
      was pending, and none is taken before the handshake is complete; an established connection asks for WRITABLE
      exactly if plaintext remains or the library has more to send. */
  lemma WriteSurvives(s: Tls, ev: PollEvent)
    requires ev.token in s.connections && ev.token in s.hist && ev.writable && WritePhase(s, ev).Stays?
    ensures var (c, c') := (s.connections[ev.token], WritePhase(s, ev).s.connections[ev.token]);
            var taken := Taken(ev.writeScript, if c.status.TlsConnected? then c.sendBuf else []);
            && c.sendBuf == taken + c'.sendBuf
            && WritePhase(s, ev).s.hist[ev.token].plaintext == s.hist[ev.token].plaintext + taken
            && (taken != [] ==> c.status.TlsConnected?)
            && !c'.status.NotConnected? && c'.interest.readable
            && (c'.status.TlsConnected? ==> (c'.interest.writable <==> ev.wantsWriteAfterWrite || c'.sendBuf != []))
  {
    var c := s.connections[ev.token];
    WriteStaysTells(s, ev);
    LoopTakesOffered(ev.writeScript, c);
    assert WriteLeaves(s, ev).sendBuf == c.sendBuf[|Taken(ev.writeScript, Offered(c))|..];
    hide WritePhase, WriteSummary, Taken, Broken, WriteMoves;
  }

  /** The id prepared for the next connection or listener is in the range, is not the waker's and is free;
      connections and listeners never share one. */
  lemma IdAllocation(maxRead: nat, ops: seq<Op>, s: Tls)
    requires Reaches(maxRead, ops, s)
    ensures ID_RANGE_START <= s.nextId <= USIZE_MAX && s.nextId != WAKE_ID
    ensures s.nextId !in s.connections && s.nextId !in s.listeners
    ensures s.connections.Keys !! s.listeners && WAKE_ID !in s.connections && WAKE_ID !in s.listeners
  {
    ReachableInv(maxRead, ops, s);
  }

  // ---------------------------------------------------------------------------
  // The cleanup assertion
  // ---------------------------------------------------------------------------

  /** At every position of a batch, the assertion "was it properly removed after disconnect?" and the `expect`
      behind the write side fail exactly for a connection that failed its handshake on the read side: either
      earlier in the batch, or just now when the same event is also writable. */
  lemma CleanupFailsExactlyFor(maxRead: nat, ops: seq<Op>, s: Tls, batch: seq<PollEvent>, k: nat)
    requires Reaches(maxRead, ops, s) && k < |Polled(batch, s.registered.Keys)|
    requires HandleBatch(s, Polled(batch, s.registered.Keys)[..k]).Next?
    ensures var events := Polled(batch, s.registered.Keys);
            var mid := HandleBatch(s, events[..k]);
            && mid.s.registered.Keys == {WAKE_ID} + mid.s.listeners + mid.s.connections.Keys
            && (HandleToken(mid.s, mid.disconnected, mid.vanished, events[k]) == Stopped(MissingConnection)
                <==> events[k].token in mid.vanished
                     || (events[k].token !in mid.disconnected && events[k].writable && FailsHandshake(mid.s, events[k])))
  {
    hide HandleToken, Polled, FailsHandshake;
    ReachableInv(maxRead, ops, s);
    var events := Polled(batch, s.registered.Keys);
    HandleBatchInv(s, events[..k]);
    var mid := HandleBatch(s, events[..k]);
    assert RegistryOk(mid.s);
    hide HandleBatch, LivesOk, OutputOk, Accounted;
    CleanupFailsIff(mid.s, mid.disconnected, mid.vanished, events[k], s.registered.Keys);
  }

  /** Poll reports nothing but the interest registered for the token. */
  ghost predicate OfInterest(s: Tls, ev: PollEvent) {
    && ev.token in s.registered
    && (ev.readable ==> s.registered[ev.token].readable) && (ev.writable ==> s.registered[ev.token].writable)
  }

  lemma InterestOf(s: Tls, id: nat)
    requires Inv(s) && id in s.connections
    ensures id in s.registered && id in s.hist && id != WAKE_ID && id !in s.listeners
    ensures if s.connections[id].status.NotConnected? then s.hist[id].outgoing && s.registered[id] == WRITABLE
            else s.registered[id].readable
    ensures s.connections[id].status.TlsConnected? <==> Connected(id) in s.hist[id].events
    ensures !s.connections[id].status.TlsConnected? ==> s.hist[id].events == []
  {
    assert IdOk(s, id);
    hide PastLives, OutputOk;
    WordsAreWellTold(id, s.hist[id].events);
  }

  /** A single event of registered interest can make it fail exactly on a connection that is still in its
      handshake and asks for WRITABLE. */
  lemma SingleEventCanFailIff(maxRead: nat, ops: seq<Op>, s: Tls, id: nat)
    requires Reaches(maxRead, ops, s) && id in s.connections
    ensures id in s.registered
    ensures (exists ev: PollEvent ::
               ev.token == id && OfInterest(s, ev) && HandleToken(s, {}, {}, ev) == Stopped(MissingConnection))
            <==> s.connections[id].status.TcpConnected? && s.registered[id].writable
  {
    ReachableInv(maxRead, ops, s);
    InterestOf(s, id);
    hide LivesOk, OutputOk, HandleToken;
    forall ev: PollEvent | ev.token == id
      ensures HandleToken(s, {}, {}, ev) == Stopped(MissingConnection) <==> ev.writable && FailsHandshake(s, ev)
    {
      CleanupFailsIff(s, {}, {}, ev, s.registered.Keys);
    }
    if s.connections[id].status.TcpConnected? && s.registered[id].writable {
      var ev := HandshakeCut(id, true);
      assert FailsHandshake(s, ev);
      assert ev.token == id && OfInterest(s, ev) && HandleToken(s, {}, {}, ev) == Stopped(MissingConnection);
    }
  }

  /** The peer closes the socket in the middle of the handshake. */
  function HandshakeCut(id: nat, writable: bool): PollEvent {
    PollEvent(id, true, writable, [], [ReadPass(EndOfStream, true, PlainWouldBlock)], true, false, false, [], true,
              false)
  }

  ghost predicate BatchOfInterest(s: Tls, batch: seq<PollEvent>) {
    forall i :: 0 <= i < |batch| ==> OfInterest(s, batch[i])
  }

  /** A poll of registered tokens is the batch handled in order. */
  lemma PollStep(s: Tls, batch: seq<PollEvent>)
    requires (s.connections != map[] || s.listeners != {})
    requires forall i :: 0 <= i < |batch| ==> batch[i].token in s.registered
    ensures Step(s, Poll(batch)) == match HandleBatch(s, batch)
                                    case Stopped(why) => Halted(why)
                                    case Next(s1, _, _) => Running(s1)
  {
    hide HandleBatch, Polled;
    AllPolledIsHandled(batch, s.registered.Keys);
  }

  lemma IdleStep(s: Tls, batch: seq<PollEvent>)
    requires s.connections == map[] && s.listeners == {}
    ensures Step(s, Poll(batch)).Running?
  {
    hide HandleBatch, Polled;
  }

  /** In a batch that began without any connection in its handshake, none has vanished so far, and a polled one
      that is in its handshake now was still connecting, and so not polled as readable. */
  ghost predicate NoneCut(s0: Tls, s: Tls, disconnected: set<nat>, vanished: set<nat>) {
    && vanished == {}
    && forall id :: id in s.connections && id in s0.registered && id !in disconnected ==>
         && id in s0.connections
         && (s0.connections[id].status.NotConnected? || s.connections[id].status.TlsConnected?)
  }

  lemma ChangeTouchesOne(s: Tls, s': Tls, id: nat)
    requires id in s.connections && Changes(s, s', id)
    requires id in s'.connections && s.connections[id].status.TlsConnected? ==> s'.connections[id].status.TlsConnected?
    ensures OnlyOne(s, s', id)
  {
  }

  /** A phase changes no other connection, and no status backwards. */
  lemma ReadTouchesOne(s: Tls, ev: PollEvent)
    requires ev.token in s.connections && ev.token in s.hist && !ReadPhase(s, ev).Stops?
    ensures OnlyOne(s, ReadPhase(s, ev).s, ev.token)
  {
    var (id, c, s') := (ev.token, s.connections[ev.token], ReadPhase(s, ev).s);
    if ev.readable && ReadPhase(s, ev).Stays? {
      ReadStaysTells(s, ev);
      hide ReadPhase, ReadSummary, Tells, Changes, ReadTells;
      ChangeTouchesOne(s, s', id);
    } else {
      ReadPhaseKeys(s, ev);
      hide ReadSummary, Settle;
    }
  }

  lemma WriteTouchesOne(s: Tls, ev: PollEvent)
    requires ev.token in s.connections && ev.token in s.hist && !WritePhase(s, ev).Stops?
    ensures OnlyOne(s, WritePhase(s, ev).s, ev.token)
  {
    var s' := WritePhase(s, ev).s;
    NeverVanishes(s, ev);
    if ev.writable && WritePhase(s, ev).Stays? {
      WriteStaysTells(s, ev);
      hide WritePhase, WriteSummary, Tells, Changes, WriteTells, WriteTaken;
      ChangeTouchesOne(s, s', ev.token);
    } else if ev.writable {
      WriteEndsTells(s, ev);
      hide WritePhase, WriteSummary, Tells, Changes, WriteTells;
      ChangeTouchesOne(s, s', ev.token);
    }
  }

  ghost predicate OnlyOne(s: Tls, s': Tls, id: nat) {
    && (forall other :: other != id && other in s'.connections ==>
          other in s.connections && s'.connections[other] == s.connections[other])
    && (id in s'.connections ==>
          id in s.connections && (s.connections[id].status.TlsConnected? ==> s'.connections[id].status.TlsConnected?))
  }

  lemma AddKeeps(s: Tls, id: nat)
    requires Room(s, 1) && id in s.connections && s.nextId !in s.connections
    ensures var s' := AddConnection(s, false); id in s'.connections && s'.connections[id] == s.connections[id]
  {
    hide NextAfterBirth, Room, Past;
  }

  lemma {:induction false} AcceptKeeps(s: Tls, n: nat, id: nat)
    requires Inv(s) && Room(s, n) && id in s.connections
    ensures id in AcceptMany(s, n).connections && AcceptMany(s, n).connections[id] == s.connections[id]
    decreases n
  {
    if n > 0 {
      hide Inv, AddConnection;
      AcceptKeeps(s, n - 1, id);
      AcceptManyInv(s, n - 1);
      NextIsNew(AcceptMany(s, n - 1));
      AddKeeps(AcceptMany(s, n - 1), id);
    }
  }

  lemma NextIsNew(s: Tls)
    requires Inv(s)
    ensures s.nextId !in s.connections
  {
  }

  lemma AcceptPhaseKeeps(s: Tls, script: seq<AcceptResult>, id: nat)
    requires Inv(s) && AcceptPhase(s, script).Running? && id in s.connections
    ensures var s' := AcceptPhase(s, script).s;
            id in s'.connections && s'.connections[id] == s.connections[id]
  {
    hide Inv, AcceptMany, AcceptSummary;
    AcceptKeeps(s, AcceptSummary(script).value, id);
  }

  lemma NoHandshakeFails(s0: Tls, s: Tls, disconnected: set<nat>, ev: PollEvent)
    requires Inv(s0) && NoneCut(s0, s, disconnected, {}) && OfInterest(s0, ev) && ev.token !in disconnected
    ensures !FailsHandshake(s, ev)
  {
    if ev.token in s.connections {
      InterestOf(s0, ev.token);
      hide Inv;
    }
  }

  lemma AcceptCutsNone(s0: Tls, s: Tls, disconnected: set<nat>, ev: PollEvent)
    requires Inv(s0) && Inv(s) && NoneCut(s0, s, disconnected, {}) && OfInterest(s0, ev)
    requires Accounted(s, disconnected, {}, s0.registered.Keys) && AcceptPhase(s, ev.acceptScript).Running?
    ensures NoneCut(s0, AcceptPhase(s, ev.acceptScript).s, disconnected, {})
  {
    hide Inv, AcceptPhase;
    AcceptPhaseInv(s, ev.acceptScript);
    var s' := AcceptPhase(s, ev.acceptScript).s;
    InvIds(s');
    forall id | id in s'.connections && id in s0.registered && id !in disconnected
      ensures id in s0.connections
              && (s0.connections[id].status.NotConnected? || s'.connections[id].status.TlsConnected?)
    {
      assert id in s.connections;
      AcceptPhaseKeeps(s, ev.acceptScript, id);
    }
  }

  lemma StillNone(s0: Tls, s: Tls, disconnected: set<nat>, id: nat, s': Tls, disconnected': set<nat>)
    requires NoneCut(s0, s, disconnected, {}) && OnlyOne(s, s', id) && disconnected <= disconnected'
    ensures NoneCut(s0, s', disconnected', {})
  {
  }

  /** The outcome of a polled connection, by its phases. */
  lemma PhasesOf(s: Tls, disconnected: set<nat>, ev: PollEvent)
    requires ev.token in s.connections && ev.token !in s.listeners && ev.token != WAKE_ID && ev.token !in disconnected
    requires HandleToken(s, disconnected, {}, ev).Next? && !FailsHandshake(s, ev)
    ensures var (h, r) := (HandleToken(s, disconnected, {}, ev), ReadPhase(s, ev));
            && h.vanished == {} && disconnected <= h.disconnected && (r.Leaves? || r.Stays?)
            && (r.Leaves? ==> h.s == r.s)
            && (r.Stays? ==> ev.token in r.s.connections && !WritePhase(r.s, ev).Stops? && h.s == WritePhase(r.s, ev).s)
  {
    ReadPhaseKeys(s, ev);
    if ReadPhase(s, ev).Stays? {
      WritePhaseKeys(ReadPhase(s, ev).s, ev);
    }
    hide ReadPhase, WritePhase, FailsHandshake;
  }

  lemma ConnectionCutsNone(s0: Tls, s: Tls, disconnected: set<nat>, ev: PollEvent)
    requires Inv(s0) && Inv(s) && NoneCut(s0, s, disconnected, {}) && OfInterest(s0, ev)
    requires ev.token in s.connections && ev.token !in s.listeners && ev.token != WAKE_ID && ev.token !in disconnected
    requires HandleToken(s, disconnected, {}, ev).Next?
    ensures var h := HandleToken(s, disconnected, {}, ev); NoneCut(s0, h.s, h.disconnected, h.vanished)
  {
    hide Inv, ReadPhase, WritePhase, FailsHandshake, NoneCut, OnlyOne, HandleToken;
    var h := HandleToken(s, disconnected, {}, ev);
    NoHandshakeFails(s0, s, disconnected, ev);
    PhasesOf(s, disconnected, ev);
    InterestOf(s, ev.token);
    var r := ReadPhase(s, ev);
    ReadTouchesOne(s, ev);
    if r.Stays? {
      ReadPhaseInv(s, ev);
      InterestOf(r.s, ev.token);
      WriteTouchesOne(r.s, ev);
      StillNone(s0, s, disconnected, ev.token, r.s, disconnected);
      StillNone(s0, r.s, disconnected, ev.token, h.s, h.disconnected);
    } else {
      StillNone(s0, s, disconnected, ev.token, h.s, h.disconnected);
    }
  }

  /** One token of a batch that began without a connection in its handshake. */
  lemma TokenCutsNone(s0: Tls, s: Tls, disconnected: set<nat>, ev: PollEvent)
    requires Inv(s0) && Inv(s) && NoneCut(s0, s, disconnected, {}) && OfInterest(s0, ev)
    requires Accounted(s, disconnected, {}, s0.registered.Keys)
    ensures match HandleToken(s, disconnected, {}, ev)
            case Stopped(why) => why != MissingConnection
            case Next(s', d, v) => NoneCut(s0, s', d, v)
  {
    InvIds(s);
    hide Inv, ReadPhase, WritePhase, AcceptPhase, FailsHandshake, NoneCut;
    assert RegistryOk(s) by { InvRegistry(s); }
    CleanupFailsIff(s, disconnected, {}, ev, s0.registered.Keys);
    if ev.token !in disconnected {
      NoHandshakeFails(s0, s, disconnected, ev);
    }
    hide RegistryOk;
    if HandleToken(s, disconnected, {}, ev).Next? {
      if ev.token in s.listeners {
        AcceptCutsNone(s0, s, disconnected, ev);
        assert {} - AcceptPhase(s, ev.acceptScript).s.connections.Keys == {};
      } else if ev.token in s.connections && ev.token !in disconnected {
        ConnectionCutsNone(s0, s, disconnected, ev);
      }
    }
  }

  lemma InvRegistry(s: Tls)
    requires Inv(s)
    ensures RegistryOk(s)
  {
  }

  lemma {:induction false} BatchCutsNone(s: Tls, events: seq<PollEvent>)
    requires Inv(s) && BatchOfInterest(s, events)
    requires forall id :: id in s.connections ==> !s.connections[id].status.TcpConnected?
    ensures match HandleBatch(s, events)
            case Stopped(why) => why != MissingConnection
            case Next(s', d, v) => NoneCut(s, s', d, v)
  {
    hide HandleToken, Inv, OfInterest;
    if events != [] {
      var (init, last) := (events[..|events| - 1], events[|events| - 1]);
      BatchCutsNone(s, init);
      if HandleBatch(s, init).Next? {
        HandleBatchInv(s, init);
        var b := HandleBatch(s, init);
        assert OfInterest(s, last) && b.vanished == {};
        TokenCutsNone(s, b.s, b.disconnected, last);
      }
    }
  }

  lemma CutOnce(s: Tls, id: nat)
    requires Inv(s) && id in s.connections && s.connections[id].status.TcpConnected?
    ensures var cut := HandshakeCut(id, false);
            var first := HandleToken(s, {}, {}, cut);
            && OfInterest(s, cut) && first.Next? && first.disconnected == {}
            && HandleToken(first.s, {}, first.vanished, cut) == Stopped(MissingConnection)
  {
    var cut := HandshakeCut(id, false);
    InterestOf(s, id);
    assert FailsHandshake(s, cut);
    ReadPhaseKeys(s, cut);
    hide Inv, ReadPhase, FailsHandshake, WritePhase;
  }

  lemma CutTwice(s: Tls, id: nat)
    requires Inv(s) && id in s.connections && s.connections[id].status.TcpConnected?
    ensures var batch := [HandshakeCut(id, false), HandshakeCut(id, false)];
            BatchOfInterest(s, batch) && Step(s, Poll(batch)) == Halted(MissingConnection)
  {
    var cut := HandshakeCut(id, false);
    var batch := [cut, cut];
    CutOnce(s, id);
    assert BatchOfInterest(s, batch);
    hide Inv, HandleToken, HandshakeCut, Polled, Step;
    PollStep(s, batch);
    assert batch[..1] == [cut] && batch[..1][..0] == [];
    assert HandleBatch(s, batch[..1][..0]) == Next(s, {}, {});
    assert HandleBatch(s, batch[..1]) == HandleToken(s, {}, {}, cut);
  }

  lemma BatchCannotFail(s: Tls, batch: seq<PollEvent>)
    requires Inv(s) && BatchOfInterest(s, batch)
    requires forall id :: id in s.connections ==> !s.connections[id].status.TcpConnected?
    ensures Step(s, Poll(batch)) != Halted(MissingConnection)
  {
    hide Inv, HandleBatch, Step, NoneCut;
    BatchCutsNone(s, batch);
    if s.connections == map[] && s.listeners == {} {
      IdleStep(s, batch);
    } else {
      assert forall i :: 0 <= i < |batch| ==> OfInterest(s, batch[i]);
      PollStep(s, batch);
    }
  }

  /** A poll of registered interest, with any tokens any number of times, can make the assertion fail exactly if
      some connection is in its handshake. */
  lemma CleanupCanFailIff(maxRead: nat, ops: seq<Op>, s: Tls)
    requires Reaches(maxRead, ops, s)
    ensures (exists batch :: BatchOfInterest(s, batch) && Step(s, Poll(batch)) == Halted(MissingConnection))
            <==> exists id :: id in s.connections && s.connections[id].status.TcpConnected?
  {
    ReachableInv(maxRead, ops, s);
    hide Inv, Step, BatchOfInterest, Reaches;
    if id :| id in s.connections && s.connections[id].status.TcpConnected? {
      CutTwice(s, id);
    } else {
      forall batch | BatchOfInterest(s, batch)
        ensures Step(s, Poll(batch)) != Halted(MissingConnection)
      {
        BatchCannotFail(s, batch);
      }
    }
  }

  // ---------------------------------------------------------------------------
  // Where TLS tells another story than TCP
  // ---------------------------------------------------------------------------

  /** Handling the event starts with Data, and Connected has not been told. */
  ghost predicate TellsDataFirst(s: Tls, ev: PollEvent)
    requires ev.token in s.hist
  {
    var h := HandleToken(s, {}, {}, ev);
    && h.Next? && |s.out| < |h.s.out| && h.s.out[|s.out|].Data? && About(h.s.out[|s.out|], ev.token)
    && Connected(ev.token) !in s.hist[ev.token].events
  }

  ghost predicate TellsFailed(s: Tls, ev: PollEvent) {
    var h := HandleToken(s, {}, {}, ev);
    h.Next? && s.out <= h.s.out && ConnectionFailed(ev.token) in h.s.out[|s.out|..]
  }

  /** The last handshake message and the first data arrive together. */
  function FirstFlight(id: nat): PollEvent {
    PollEvent(id, true, false, [], [ReadPass(Encrypted, true, Plain([7]))], false, false, false, [], true, false)
  }

  /** The connect is refused, or the socket breaks while the handshake is written. */
  function WriteRefused(id: nat): PollEvent {
    PollEvent(id, false, true, [], [], true, false, true, [WritePass(PlainFull, WriteError)], true, false)
  }

  /** What the phases of a single polled connection tell. */
  lemma TokenTells(s: Tls, ev: PollEvent)
    requires ev.token in s.connections && ev.token in s.hist && ev.token !in s.listeners && ev.token != WAKE_ID
    requires HandleToken(s, {}, {}, ev).Next?
    ensures var (h, r) := (HandleToken(s, {}, {}, ev), ReadPhase(s, ev));
            && !r.Stops? && (!r.Stays? ==> h.s == r.s)
            && (r.Stays? ==> ev.token in r.s.connections && !WritePhase(r.s, ev).Stops? && h.s == WritePhase(r.s, ev).s)
  {
    ReadPhaseKeys(s, ev);
    if ReadPhase(s, ev).Stays? {
      WritePhaseKeys(ReadPhase(s, ev).s, ev);
    }
    hide ReadPhase, WritePhase;
  }

  /** Writing tells no data. */
  lemma WriteTellsNoData(s: Tls, ev: PollEvent)
    requires ev.token in s.connections && ev.token in s.hist && !WritePhase(s, ev).Stops?
    ensures var s' := WritePhase(s, ev).s;
            s.out <= s'.out && forall i :: |s.out| <= i < |s'.out| ==> !s'.out[i].Data?
  {
    NeverVanishes(s, ev);
    if ev.writable && WritePhase(s, ev).Stays? {
      WriteStaysTells(s, ev);
      hide WritePhase, WriteTaken, WriteLeaves;
    } else if ev.writable {
      WriteEndsTells(s, ev);
      hide WritePhase, WriteTaken, WriteLeaves;
    }
  }

  /** Reading tells data only if it read some. */
  lemma ReadTellsData(s: Tls, ev: PollEvent)
    requires ev.token in s.connections && ev.token in s.hist && !ReadPhase(s, ev).Stops?
    ensures var s' := ReadPhase(s, ev).s;
            && s.out <= s'.out && ev.token in s'.hist
            && (!ev.readable || ReadSummary(ev.readScript, s.maxRead).data == []
                ==> forall i :: |s.out| <= i < |s'.out| ==> !s'.out[i].Data?)
  {
    hide ReadSummary, Settle;
  }

  lemma NoRoomNoData(script: seq<ReadPass>)
    ensures ReadSummary(script, 0).data == []
  {
  }

  lemma DataNeeds(s: Tls, ev: PollEvent)
    requires Inv(s) && ev.token in s.connections && OfInterest(s, ev)
    ensures ev.token in s.hist
    ensures TellsDataFirst(s, ev) ==> s.connections[ev.token].status.TcpConnected? && s.maxRead > 0
  {
    var id := ev.token;
    InterestOf(s, id);
    if TellsDataFirst(s, ev) {
      TokenTells(s, ev);
      hide HandleToken, Inv;
      var r := ReadPhase(s, ev);
      ReadTellsData(s, ev);
      NoRoomNoData(ev.readScript);
      if r.Stays? {
        WriteTellsNoData(r.s, ev);
      }
      hide ReadPhase, WritePhase;
    }
  }

  lemma FirstFlightTells(s: Tls, id: nat)
    requires id in s.connections && id in s.hist && id !in s.listeners && id != WAKE_ID
    requires s.connections[id].status.TcpConnected? && s.maxRead > 0
    ensures var h := HandleToken(s, {}, {}, FirstFlight(id));
            h.Next? && h.s.out == s.out + [Data(id, [7]), Connected(id)]
  {
    var ev := FirstFlight(id);
    assert ev.readScript[1..] == [];
    assert [7][..Min(1, s.maxRead)] == [7] && [7] + [] == [7];
    assert ReadSummary(ev.readScript, s.maxRead) == ReadIo([7], false, true);
    hide ReadSummary;
    assert s.out + [Data(id, [7])] + [Connected(id)] == s.out + [Data(id, [7]), Connected(id)];
  }

  /** Data before Connected: some event of registered interest tells it exactly on a connection that is in its
      handshake, and with a read size that is not zero. */
  lemma DataFirstIff(maxRead: nat, ops: seq<Op>, s: Tls, id: nat)
    requires Reaches(maxRead, ops, s) && id in s.connections
    ensures id in s.hist
    ensures (exists ev: PollEvent :: ev.token == id && OfInterest(s, ev) && TellsDataFirst(s, ev))
            <==> s.connections[id].status.TcpConnected? && s.maxRead > 0
  {
    ReachableInv(maxRead, ops, s);
    InterestOf(s, id);
    hide Inv, HandleToken;
    forall ev: PollEvent | ev.token == id && OfInterest(s, ev)
      ensures TellsDataFirst(s, ev) ==> s.connections[id].status.TcpConnected? && s.maxRead > 0
    {
      DataNeeds(s, ev);
    }
    if s.connections[id].status.TcpConnected? && s.maxRead > 0 {
      var ev := FirstFlight(id);
      FirstFlightTells(s, id);
      assert ev.token == id && OfInterest(s, ev) && TellsDataFirst(s, ev);
    }
  }

  lemma ReadLeavesEstablished(s: Tls, ev: PollEvent)
    requires ev.token in s.connections
    ensures ReadPhase(s, ev).Leaves? ==> s.connections[ev.token].status.TlsConnected?
    ensures !ev.writable ==> WritePhase(s, ev) == Stays(s)
  {
    hide ReadSummary, WriteSummary, Settle;
  }

  lemma SplitOut(a: seq<TransportEvent>, b: seq<TransportEvent>, c: seq<TransportEvent>)
    requires a <= b <= c
    ensures c[|a|..] == b[|a|..] + c[|b|..]
  {
  }

  lemma FailedNeeds(s: Tls, ev: PollEvent)
    requires Inv(s) && ev.token in s.connections && OfInterest(s, ev)
    ensures TellsFailed(s, ev) ==> !s.connections[ev.token].status.TlsConnected? && s.registered[ev.token].writable
  {
    var id := ev.token;
    InterestOf(s, id);
    if TellsFailed(s, ev) {
      TokenTells(s, ev);
      hide Inv, HandleToken, ReadPhase, WritePhase, FailsHandshake;
      var r := ReadPhase(s, ev);
      StatusMachine(s, ev);
      ReadTellsData(s, ev);
      ReadLeavesEstablished(s, ev);
      if r.Stays? {
        var w := WritePhase(r.s, ev);
        StatusMachine(r.s, ev);
        ReadLeavesEstablished(r.s, ev);
        WriteTellsNoData(r.s, ev);
        SplitOut(s.out, r.s.out, w.s.out);
      }
    }
  }

  lemma WriteRefusedFails(s: Tls, id: nat)
    requires id in s.connections && id in s.hist && id !in s.listeners && id != WAKE_ID
    requires !s.connections[id].status.TlsConnected?
    ensures var h := HandleToken(s, {}, {}, WriteRefused(id));
            h.Next? && h.s.out == s.out + [ConnectionFailed(id)]
  {
    var ev := WriteRefused(id);
    assert ReadPhase(s, ev) == Stays(s);
    hide ReadPhase;
    assert WriteSummary(ev.writeScript, |s.connections[id].sendBuf|, false) == WriteIo(0, true, false);
    hide WriteSummary;
  }

  /** ConnectionFailed: some event of registered interest tells it exactly on a connection that is not established
      and asks for WRITABLE. On an accepted one, which is never still connecting, that is in its handshake. */
  lemma ConnectionFailedIff(maxRead: nat, ops: seq<Op>, s: Tls, id: nat)
    requires Reaches(maxRead, ops, s) && id in s.connections
    ensures id in s.registered && id in s.hist
    ensures (exists ev: PollEvent :: ev.token == id && OfInterest(s, ev) && TellsFailed(s, ev))
            <==> !s.connections[id].status.TlsConnected? && s.registered[id].writable
    ensures !s.hist[id].outgoing ==> !s.connections[id].status.NotConnected?
  {
    ReachableInv(maxRead, ops, s);
    InterestOf(s, id);
    hide Inv, HandleToken;
    forall ev: PollEvent | ev.token == id && OfInterest(s, ev)
      ensures TellsFailed(s, ev) ==> !s.connections[id].status.TlsConnected? && s.registered[id].writable
    {
      FailedNeeds(s, ev);
    }
    if !s.connections[id].status.TlsConnected? && s.registered[id].writable {
      var ev := WriteRefused(id);
      WriteRefusedFails(s, id);
      assert (s.out + [ConnectionFailed(id)])[|s.out|..] == [ConnectionFailed(id)];
      assert ev.token == id && OfInterest(s, ev) && TellsFailed(s, ev);
    }
  }

  // ---------------------------------------------------------------------------
  // Runs that show it
  // ---------------------------------------------------------------------------

  function Accepting(listener: nat): PollEvent {
    PollEvent(listener, true, false, [NewStream], [], false, false, false, [], false, false)
  }

  lemma ExecNothing(s: Tls)
    ensures Exec(s, []) == Running(s)
  {
  }

  lemma ExecSnoc(s: Tls, ops: seq<Op>, op: Op)
    ensures Exec(s, ops + [op]) == match Exec(s, ops)
                                   case Halted(why) => Halted(why)
                                   case Running(s1) => Step(s1, op)
  {
    assert (ops + [op])[..|ops|] == ops;
  }

  lemma PollOne(s: Tls, ev: PollEvent)
    requires (s.connections != map[] || s.listeners != {}) && ev.token in s.registered
    ensures Step(s, Poll([ev])) == match HandleToken(s, {}, {}, ev)
                                   case Stopped(why) => Halted(why)
                                   case Next(s1, _, _) => Running(s1)
  {
    hide HandleToken, Step;
    PollStep(s, [ev]);
    assert [ev][..0] == [];
    assert HandleBatch(s, [ev][..0]) == Next(s, {}, {});
  }

  /** A server with one accepted client in its handshake. */
  ghost predicate OneClient(s: Tls) {
    && s.connections == map[1001 := Connection(TcpConnected, READABLE, [])] && s.connections.Keys == {1001}
    && s.listeners == {1000} && 1001 in s.registered && 1001 in s.hist && s.out == [] && s.maxRead == 1
  }

  lemma ListenStep()
    ensures Step(Init(1), Listen(true)) == Running(AddListener(Init(1)))
    ensures var s := AddListener(Init(1));
            && s.listeners == {1000} && s.nextId == 1001 && s.connections == map[] && s.spurious == 0
            && 1000 in s.registered && s.out == [] && s.maxRead == 1
  {
    var s := Init(1);
    assert Live(s) + {s.nextId} == {1000} && {} + {1000} == {1000};
    NextFreeIsSuccessor({1000}, 1000);
  }

  lemma FirstClient(s: Tls)
    requires s.listeners == {1000} && s.nextId == 1001 && s.connections == map[] && s.out == [] && s.maxRead == 1
    requires Room(s, 1)
    ensures OneClient(AddConnection(s, false)) && AddConnection(s, false).spurious == s.spurious
  {
    hide NextAfterBirth, Room;
    var s' := AddConnection(s, false);
    assert s'.connections.Keys == {1001} && s'.connections[1001] == Connection(TcpConnected, READABLE, []);
  }

  lemma AcceptOne(s: Tls)
    requires Room(s, 1) && s.spurious == 0 && AddConnection(s, false).spurious == 0
    ensures AcceptPhase(s, [NewStream]) == Running(AddConnection(s, false))
  {
    assert [NewStream][1..] == [];
    assert AcceptSummary([NewStream]) == Some(1);
    hide AddConnection, AcceptSummary;
    assert AcceptMany(s, 0) == s;
    assert AcceptMany(s, 1) == AddConnection(s, false);
  }

  lemma AcceptStep(s: Tls)
    requires s.listeners == {1000} && s.nextId == 1001 && s.connections == map[] && s.spurious == 0
    requires 1000 in s.registered && s.out == [] && s.maxRead == 1
    ensures Step(s, Poll([Accepting(1000)])) == Running(AddConnection(s, false))
    ensures OneClient(AddConnection(s, false))
  {
    assert Room(s, 1);
    PollOne(s, Accepting(1000));
    hide Step, Polled, AddConnection, AcceptPhase, ReadPhase, WritePhase, OneClient, Room;
    FirstClient(s);
    AcceptOne(s);
  }

  /** Listen, accept one client: the beginning of the runs below. */
  lemma OneClientRun() returns (s: Tls)
    ensures Exec(Init(1), [Listen(true), Poll([Accepting(1000)])]) == Running(s) && OneClient(s)
  {
    hide Exec, Step, AddConnection, AddListener;
    var (listen, accept) := (Listen(true), Poll([Accepting(1000)]));
    ExecNothing(Init(1));
    ExecSnoc(Init(1), [], listen);
    assert [] + [listen] == [listen];
    ListenStep();
    ExecSnoc(Init(1), [listen], accept);
    assert [listen] + [accept] == [listen, accept];
    AcceptStep(AddListener(Init(1)));
    s := AddConnection(AddListener(Init(1)), false);
  }

  lemma QueueStep(s: Tls)
    requires OneClient(s)
    ensures Step(s, Queue(1001, [7])) == Running(QueueData(s, 1001, [7]))
    ensures var s' := QueueData(s, 1001, [7]);
            && 1001 in s'.connections && s'.connections[1001].status.TcpConnected? && s'.listeners == {1000}
            && 1001 in s'.registered && 1001 in s'.hist && s'.out == []
  {
  }

  /** A client is accepted, a byte is sent to it during its handshake, and the client goes away. */
  lemma CleanupAssertFires()
    ensures Exec(Init(1), [Listen(true), Poll([Accepting(1000)]), Queue(1001, [7]), Poll([HandshakeCut(1001, true)])])
            == Halted(MissingConnection)
  {
    hide Exec, Step, QueueData, HandleToken;
    var (listen, accept) := (Listen(true), Poll([Accepting(1000)]));
    var (queue, cut) := (Queue(1001, [7]), Poll([HandshakeCut(1001, true)]));
    var s := OneClientRun();
    ExecSnoc(Init(1), [listen, accept], queue);
    assert [listen, accept] + [queue] == [listen, accept, queue];
    QueueStep(s);
    ExecSnoc(Init(1), [listen, accept, queue], cut);
    assert [listen, accept, queue] + [cut] == [listen, accept, queue, cut];
    CutStep(QueueData(s, 1001, [7]));
  }

  lemma CutStep(s: Tls)
    requires 1001 in s.connections && s.listeners == {1000} && 1001 in s.registered
    requires s.connections[1001].status.TcpConnected?
    ensures Step(s, Poll([HandshakeCut(1001, true)])) == Halted(MissingConnection)
  {
    PollOne(s, HandshakeCut(1001, true));
    hide Step, Polled;
    assert FailsHandshake(s, HandshakeCut(1001, true));
  }

  /** A client is accepted, and its last handshake message brings its first data along. */
  lemma DataFirstHappens()
    ensures var r := Exec(Init(1), [Listen(true), Poll([Accepting(1000)]), Poll([FirstFlight(1001)])]);
            r.Running? && r.s.out == [Data(1001, [7]), Connected(1001)]
  {
    hide Exec, Step, HandleToken;
    var (listen, accept, flight) := (Listen(true), Poll([Accepting(1000)]), Poll([FirstFlight(1001)]));
    var s := OneClientRun();
    ExecSnoc(Init(1), [listen, accept], flight);
    assert [listen, accept] + [flight] == [listen, accept, flight];
    PollOne(s, FirstFlight(1001));
    FirstFlightTells(s, 1001);
  }

  /** A client is accepted, a byte is sent to it during its handshake, and the socket breaks. */
  lemma AcceptedConnectionFails()
    ensures var r := Exec(Init(1), [Listen(true), Poll([Accepting(1000)]), Queue(1001, [7]), Poll([WriteRefused(1001)])]);
            r.Running? && r.s.out == [ConnectionFailed(1001)]
  {
    hide Exec, Step, QueueData, HandleToken;
    var (listen, accept) := (Listen(true), Poll([Accepting(1000)]));
    var (queue, refused) := (Queue(1001, [7]), Poll([WriteRefused(1001)]));
    var s := OneClientRun();
    ExecSnoc(Init(1), [listen, accept], queue);
    assert [listen, accept] + [queue] == [listen, accept, queue];
    QueueStep(s);
    ExecSnoc(Init(1), [listen, accept, queue], refused);
    assert [listen, accept, queue] + [refused] == [listen, accept, queue, refused];
    PollOne(QueueData(s, 1001, [7]), WriteRefused(1001));
    WriteRefusedFails(QueueData(s, 1001, [7]), 1001);
  }
}
