/** Lives of connection ids do not leak into each other: once a connection is gone, by its own end or by a local
    close, its life is over, and whatever comes later for the id belongs to a new life. */
module TcpLives {
  import opened Bytes
  import opened TransportTypes
  import opened Ids
  import opened TcpModel
  import opened TcpProofs
  import opened TcpTheorems

  /** From `s` to `s'` nothing is added to a life of `id` that was over in `s`: either the id is still gone and
      its history is what it was, or all its lives so far have become the past of a new one. */
  ghost predicate Onward(s: Tcp, s': Tcp, id: nat) {
    if id in s.connections && id in s.hist then id in s'.hist && s.hist[id].before <= s'.hist[id].before
    else
      || (id !in s'.connections && (id in s'.hist <==> id in s.hist) && (id in s.hist ==> s'.hist[id] == s.hist[id]))
      || (id in s'.hist && Lives(s, id) <= s'.hist[id].before)
  }

  lemma OnwardThen(s: Tcp, s1: Tcp, s2: Tcp, id: nat)
    requires Onward(s, s1, id) && Onward(s1, s2, id)
    requires s1.connections.Keys <= s1.hist.Keys && s.connections.Keys <= s.hist.Keys
    ensures Onward(s, s2, id)
  {
    if id in s1.hist {
      assert s1.hist[id].before <= Lives(s1, id);
    }
  }

  lemma AddOnward(s: Tcp, outgoing: bool, conn: Connection, id: nat)
    requires Room(s, 1) && s.connections.Keys <= s.hist.Keys && s.nextId !in s.connections
    ensures Onward(s, AddConnection(s, outgoing, conn), id)
    ensures AddConnection(s, outgoing, conn).connections.Keys <= AddConnection(s, outgoing, conn).hist.Keys
  {
    hide NextAfterBirth, Lives, Room;
    var s' := AddConnection(s, outgoing, conn);
    assert s'.hist == s.hist[s.nextId := History(outgoing, Lives(s, s.nextId), [], [], [], [])];
    assert s'.connections == s.connections[s.nextId := conn];
    hide AddConnection;
  }

  lemma LivesKnown(s: Tcp, pending: set<nat>)
    requires Inv(s, pending)
    ensures s.connections.Keys <= s.hist.Keys && s.nextId !in s.connections
  {
    hide IdOk, OutputOk;
  }

  lemma {:induction false} AcceptManyOnward(s: Tcp, n: nat, id: nat)
    requires Inv(s, {}) && Room(s, n)
    ensures Onward(s, AcceptMany(s, n).0, id)
  {
    hide Inv, AddConnection;
    LivesKnown(s, {});
    if n > 0 {
      AcceptManyInv(s, n - 1);
      var (s1, ids) := AcceptMany(s, n - 1);
      LivesKnown(s1, SetOf(ids));
      AcceptManyOnward(s, n - 1, id);
      AddOnward(s1, false, Connection(true, READABLE, []), id);
      hide Onward;
      OnwardThen(s, s1, AcceptMany(s, n).0, id);
    }
  }

  /** Only live connections are announced, so announcing is no new life. */
  lemma {:induction false} AnnounceOnward(s: Tcp, ids: seq<nat>, id: nat)
    requires forall i :: 0 <= i < |ids| ==> ids[i] in s.connections
    requires s.connections.Keys <= s.hist.Keys
    ensures var s' := EmitConnected(s, ids);
            s'.connections == s.connections && s'.hist.Keys == s.hist.Keys && Onward(s, s', id)
  {
    if ids != [] {
      AnnounceOnward(s, ids[..|ids| - 1], id);
    }
  }

  lemma AcceptPhaseOnward(s: Tcp, script: seq<AcceptResult>, id: nat)
    requires Inv(s, {}) && AcceptPhase(s, script).Running?
    ensures Onward(s, AcceptPhase(s, script).s, id)
  {
    hide Inv, AcceptMany, AcceptSummary, EmitConnected;
    var n := AcceptSummary(script).value;
    var (s1, ids) := AcceptMany(s, n);
    LivesKnown(s, {});
    AcceptManyInv(s, n);
    LivesKnown(s1, SetOf(ids));
    AcceptManyOnward(s, n, id);
    PendingAreLive(s1, ids);
    var s2 := Track(s1, n == 0).s;
    AnnounceOnward(s2, ids, id);
    OnwardThen(s, s2, EmitConnected(s2, ids), id);
  }

  lemma PendingAreLive(s: Tcp, ids: seq<nat>)
    requires Inv(s, SetOf(ids))
    ensures forall i :: 0 <= i < |ids| ==> ids[i] in s.connections
  {
    hide IdOk, OutputOk, RegistryOk, IdsOk;
    assert forall i :: 0 <= i < |ids| ==> ids[i] in SetOf(ids);
  }

  /** Reading and writing tell only of their own connection, while it lives or as it ends. */
  lemma ReadOnward(s: Tcp, ev: PollEvent, id: nat)
    requires ev.token in s.connections && s.connections.Keys <= s.hist.Keys && !ReadPhase(s, ev).Stops?
    ensures Onward(s, ReadPhase(s, ev).s, id)
  {
    hide ReadSummary;
  }

  lemma WriteOnward(s: Tcp, ev: PollEvent, id: nat)
    requires ev.token in s.connections && s.connections.Keys <= s.hist.Keys && !WritePhase(s, ev).Stops?
    ensures Onward(s, WritePhase(s, ev).s, id)
  {
    hide WriteSummary;
  }

  lemma TokenOnward(s: Tcp, disconnected: set<nat>, ev: PollEvent, id: nat)
    requires Inv(s, {}) && HandleToken(s, disconnected, ev).Next?
    ensures Onward(s, HandleToken(s, disconnected, ev).s, id)
  {
    LivesKnown(s, {});
    StaysOnward(s, id);
    hide Inv, AcceptPhase, ReadPhase, WritePhase, Onward;
    if ev.token in s.listeners {
      if AcceptPhase(s, ev.acceptScript).Running? {
        AcceptPhaseOnward(s, ev.acceptScript, id);
      }
    }
    if ev.token in s.connections {
      var r := ReadPhase(s, ev);
      if !r.Stops? {
        ReadOnward(s, ev, id);
      }
      if r.Stays? && ev.token in r.s.connections {
        ReadPhaseInv(s, ev);
        LivesKnown(r.s, {});
        if !WritePhase(r.s, ev).Stops? {
          WriteOnward(r.s, ev, id);
          OnwardThen(s, r.s, WritePhase(r.s, ev).s, id);
        }
      }
    }
  }

  lemma StaysOnward(s: Tcp, id: nat)
    requires s.connections.Keys <= s.hist.Keys
    ensures Onward(s, s, id)
  {
  }

  lemma {:induction false} BatchOnward(s: Tcp, events: seq<PollEvent>, id: nat)
    requires Inv(s, {}) && HandleBatch(s, events).Next?
    requires forall i :: 0 <= i < |events| ==> events[i].token in s.registered
    ensures Onward(s, HandleBatch(s, events).s, id)
  {
    hide HandleToken, Onward;
    LivesKnown(s, {});
    StaysOnward(s, id);
    if events != [] {
      var init := events[..|events| - 1];
      BatchOnward(s, init, id);
      HandleBatchInv(s, init);
      var b := HandleBatch(s, init);
      hide Inv;
      LivesKnown(s, {});
      LivesKnown(b.s, {});
      TokenOnward(b.s, b.disconnected, events[|events| - 1], id);
      OnwardThen(s, b.s, HandleBatch(s, events).s, id);
    }
  }

  lemma MulticastOnward(s: Tcp, targets: multiset<nat>, data: bytes, id: nat)
    requires s.connections.Keys <= s.hist.Keys
    ensures Onward(s, Multicast(s, targets, data), id)
  {
    hide Repeat, QueuedOn;
  }

  lemma CloseOnward(s: Tcp, request: Request, id: nat)
    requires Inv(s, {}) && Closes(request)
    ensures Onward(s, Apply(s, request).s, id)
  {
    LivesKnown(s, {});
    CloseExactness(s, request, id);
    hide Inv, Apply;
  }

  lemma SendOnward(s: Tcp, request: Request, id: nat)
    requires Inv(s, {}) && Sends(request)
    ensures Apply(s, request).Running? && Onward(s, Apply(s, request).s, id)
  {
    LivesKnown(s, {});
    hide Inv, Multicast, Onward;
    match request {
      case SendTo(to, data) => MulticastOnward(s, multiset{to}, data, id);
      case SendToMany(ids, data) => MulticastOnward(s, multiset(ids), data, id);
      case Broadcast(data) => MulticastOnward(s, multiset(s.connections.Keys), data, id);
      case BroadcastExcept(data, exceptId) =>
        MulticastOnward(s, multiset(s.connections.Keys - {exceptId}), data, id);
      case BroadcastExceptMany(data, exceptIds) =>
        MulticastOnward(s, multiset(s.connections.Keys - (set x | x in exceptIds)), data, id);
    }
  }

  lemma OpenOnward(s: Tcp, request: Request, id: nat)
    requires Inv(s, {}) && (request.Connect? || request.Listen?) && Apply(s, request).Running?
    ensures Onward(s, Apply(s, request).s, id)
  {
    LivesKnown(s, {});
    hide Inv, AddConnection, AddListener, Onward;
    StaysOnward(s, id);
    if request.ok {
      if request.Connect? {
        AddOnward(s, true, Connection(false, WRITABLE, []), id);
      } else {
        ListenOnward(s, id);
      }
    }
  }

  lemma ApplyOnward(s: Tcp, request: Request, id: nat)
    requires Inv(s, {}) && Apply(s, request).Running?
    ensures Onward(s, Apply(s, request).s, id)
  {
    hide Inv, Apply, Onward;
    if Closes(request) {
      CloseOnward(s, request, id);
    } else if Sends(request) {
      SendOnward(s, request, id);
    } else {
      OpenOnward(s, request, id);
    }
  }

  lemma ListenOnward(s: Tcp, id: nat)
    requires Room(s, 1) && s.connections.Keys <= s.hist.Keys
    ensures Onward(s, AddListener(s), id)
  {
    hide NextAfterBirth;
  }

  lemma StepOnward(s: Tcp, op: Op, id: nat)
    requires Inv(s, {}) && Step(s, op).Running?
    ensures Onward(s, Step(s, op).s, id)
  {
    hide Inv, Apply, HandleBatch, Polled;
    LivesKnown(s, {});
    match op {
      case Call(request) => ApplyOnward(s, request, id);
      case Poll(batch) =>
        if s.connections != map[] || s.listeners != {} {
          hide Onward;
          BatchOnward(s, Polled(batch, s.registered.Keys), id);
        }
    }
  }

  /** However a run goes on from a state in which `id` has no connection: its life so far is never added to. If
      the id is not given out again, its history stays as it is; if it is, everything told so far is past. */
  lemma DeadStaysSilent(maxRead: nat, ops: seq<Op>, s: Tcp, more: seq<Op>, s': Tcp, id: nat)
    requires Reaches(maxRead, ops, s) && Exec(s, more) == Running(s') && id !in s.connections
    ensures || (&& id !in s'.connections && EventsOf(s'.out, id) == EventsOf(s.out, id)
                && (id in s'.hist <==> id in s.hist) && (id in s.hist ==> s'.hist[id] == s.hist[id]))
            || (&& id in s'.hist && Lives(s, id) <= s'.hist[id].before
                && EventsOf(s.out, id) <= Told(s'.hist[id].before) <= EventsOf(s'.out, id))
  {
    ReachableInv(maxRead, ops, s);
    ExecOnward(s, more, id);
    ExecInv(s, more);
    assert OutputAt(s, id) && OutputAt(s', id);
    PastIsTold(s, id);
    if id in s'.hist && Lives(s, id) <= s'.hist[id].before {
      ToldGrows(Lives(s, id), s'.hist[id].before);
    }
  }

  lemma {:induction false} ToldGrows(lives: seq<Life>, more: seq<Life>)
    requires lives <= more
    ensures Told(lives) <= Told(more)
    decreases |more|
  {
    if |lives| == |more| {
      assert lives == more;
    } else {
      assert lives <= more[..|more| - 1];
      ToldGrows(lives, more[..|more| - 1]);
    }
  }

  lemma {:induction false} ExecOnward(s: Tcp, ops: seq<Op>, id: nat)
    requires Inv(s, {}) && Exec(s, ops).Running?
    ensures Onward(s, Exec(s, ops).s, id)
  {
    hide Inv, Step, Onward;
    LivesKnown(s, {});
    StaysOnward(s, id);
    if ops != [] {
      var init := ops[..|ops| - 1];
      ExecOnward(s, init, id);
      ExecInv(s, init);
      var s1 := Exec(s, init).s;
      LivesKnown(s, {});
      LivesKnown(s1, {});
      StepOnward(s1, ops[|ops| - 1], id);
      OnwardThen(s, s1, Exec(s, ops).s, id);
    }
  }
}
