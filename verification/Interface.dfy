/**
 src/transport/interface.rs: requests from many threads through one channel and a waker, and the loop of
 `fetch_events` that collects and applies them. Also what a run can put into a connection's send queue.
 */
module Interface {
  import opened Bytes
  import opened TransportTypes
  import opened TcpModel
  import opened TcpTheorems

  // ---------------------------------------------------------------------------
  // Producers and the loop, interleaved
  // ---------------------------------------------------------------------------

  datatype Tagged = Tagged(thread: nat, request: Request)

  /** Where the loop of `fetch_events` is: about to collect, applying what it collected, or in poll. */
  datatype Phase = Collecting | Processing(batch: seq<Tagged>) | Polling

  /** `programs` is what each thread is going to request, `sent` how far it is, `waking` the threads between
      their push and their wake. `applied` and `ops` record what the loop has done so far. */
  datatype Protocol = Protocol(
    programs: seq<seq<Request>>,
    sent: seq<nat>,
    waking: set<nat>,
    channel: seq<Tagged>,
    wakePending: bool,
    phase: Phase,
    applied: seq<Tagged>,
    ops: seq<Op>,
    tcp: Outcome)

  datatype Action = Send(thread: nat) | Wake(thread: nat) | Collect | ApplyNext | PollReturns(batch: seq<PollEvent>)

  function Start(programs: seq<seq<Request>>, maxRead: nat): Protocol {
    Protocol(programs, seq(|programs|, i => 0), {}, [], false, Collecting, [], [], Running(Init(maxRead)))
  }

  predicate Inactive(s: Tcp) {
    s.connections == map[] && s.listeners == {}
  }

  ghost predicate Enabled(p: Protocol, action: Action) {
    match action
    case Send(t) => t < |p.programs| == |p.sent| && t !in p.waking && p.sent[t] < |p.programs[t]|
    case Wake(t) => t in p.waking
    case Collect => p.phase.Collecting?
    case ApplyNext => p.phase.Processing? && p.tcp.Running?
    case PollReturns(batch) =>
      p.phase.Polling? && p.tcp.Running? && (Inactive(p.tcp.s) || p.wakePending || batch != [])
  }

  /** One atomic step of a thread or of the loop. Poll consumes a pending wake. */
  ghost function Act(p: Protocol, action: Action): Protocol
    requires Enabled(p, action)
  {
    match action
    case Send(t) =>
      p.(channel := p.channel + [Tagged(t, p.programs[t][p.sent[t]])],
         sent := p.sent[t := p.sent[t] + 1],
         waking := p.waking + {t})
    case Wake(t) => p.(waking := p.waking - {t}, wakePending := true)
    case Collect => p.(phase := Processing(p.channel), channel := [])
    case ApplyNext =>
      if p.phase.batch == [] then p.(phase := Polling)
      else
        var next := p.phase.batch[0];
        p.(phase := Processing(p.phase.batch[1..]),
           applied := p.applied + [next],
           ops := p.ops + [Call(next.request)],
           tcp := Apply(p.tcp.s, next.request))
    case PollReturns(batch) =>
      p.(phase := Collecting,
         wakePending := false,
         ops := p.ops + [Poll(batch)],
         tcp := PollRound(p.tcp.s, batch))
  }

  /** The state after a sequence of actions, if each was possible when it was taken. */
  ghost function Run(start: Protocol, actions: seq<Action>): Option<Protocol> {
    if actions == [] then Some(start)
    else
      match Run(start, actions[..|actions| - 1])
      case None => None
      case Some(p) =>
        if Enabled(p, actions[|actions| - 1]) then Some(Act(p, actions[|actions| - 1])) else None
  }

  function Pending(p: Protocol): seq<Tagged> {
    (if p.phase.Processing? then p.phase.batch else []) + p.channel
  }

  function RequestsOf(tagged: seq<Tagged>, thread: nat): seq<Request> {
    if tagged == [] then []
    else
      var last := tagged[|tagged| - 1];
      RequestsOf(tagged[..|tagged| - 1], thread) + (if last.thread == thread then [last.request] else [])
  }

  function CallsIn(ops: seq<Op>): seq<Request> {
    if ops == [] then []
    else
      var last := ops[|ops| - 1];
      CallsIn(ops[..|ops| - 1]) + (if last.Call? then [last.request] else [])
  }

  function Untagged(tagged: seq<Tagged>): seq<Request> {
    seq(|tagged|, i requires 0 <= i < |tagged| => tagged[i].request)
  }

  /** Program order per thread, effect as direct calls in channel order, and no request left behind. */
  ghost predicate ProtocolInv(p: Protocol, programs: seq<seq<Request>>, maxRead: nat) {
    && p.programs == programs && |p.sent| == |programs|
    && (forall t :: 0 <= t < |programs| ==>
          p.sent[t] <= |programs[t]| && RequestsOf(p.applied + Pending(p), t) == programs[t][..p.sent[t]])
    && Exec(Init(maxRead), p.ops) == p.tcp
    && CallsIn(p.ops) == Untagged(p.applied)
    && (p.channel != [] && !p.phase.Collecting? ==> p.wakePending || p.waking != {})
  }

  lemma RequestsOfSnoc(tagged: seq<Tagged>, x: Tagged, thread: nat)
    ensures RequestsOf(tagged + [x], thread) == RequestsOf(tagged, thread) + (if x.thread == thread then [x.request] else [])
  {
    assert (tagged + [x])[..|tagged|] == tagged;
  }

  lemma SendKeeps(p: Protocol, t: nat, programs: seq<seq<Request>>, maxRead: nat)
    requires ProtocolInv(p, programs, maxRead) && Enabled(p, Send(t))
    ensures ProtocolInv(Act(p, Send(t)), programs, maxRead)
  {
    hide Exec, CallsIn, Untagged, RequestsOf;
    var p' := Act(p, Send(t));
    var x := Tagged(t, programs[t][p.sent[t]]);
    assert p'.applied + Pending(p') == (p.applied + Pending(p)) + [x];
    forall i | 0 <= i < |programs|
      ensures RequestsOf(p'.applied + Pending(p'), i) == programs[i][..p'.sent[i]]
    {
      RequestsOfSnoc(p.applied + Pending(p), x, i);
      assert i == t ==> programs[t][..p.sent[t] + 1] == programs[t][..p.sent[t]] + [x.request];
    }
  }

  lemma ApplyNextKeeps(p: Protocol, programs: seq<seq<Request>>, maxRead: nat)
    requires ProtocolInv(p, programs, maxRead) && Enabled(p, ApplyNext)
    ensures ProtocolInv(Act(p, ApplyNext), programs, maxRead)
  {
    hide Exec, RequestsOf, Apply;
    var p' := Act(p, ApplyNext);
    assert p'.applied + Pending(p') == p.applied + Pending(p);
    if p.phase.batch != [] {
      var next := p.phase.batch[0];
      ExecSnoc(Init(maxRead), p.ops, Call(next.request));
      assert (p.ops + [Call(next.request)])[..|p.ops|] == p.ops;
      assert Untagged(p'.applied) == Untagged(p.applied) + [next.request];
    }
  }

  lemma PollKeeps(p: Protocol, batch: seq<PollEvent>, programs: seq<seq<Request>>, maxRead: nat)
    requires ProtocolInv(p, programs, maxRead) && Enabled(p, PollReturns(batch))
    ensures ProtocolInv(Act(p, PollReturns(batch)), programs, maxRead)
  {
    hide Exec, RequestsOf, PollRound, Untagged;
    var p' := Act(p, PollReturns(batch));
    assert p'.applied + Pending(p') == p.applied + Pending(p);
    ExecSnoc(Init(maxRead), p.ops, Poll(batch));
    assert (p.ops + [Poll(batch)])[..|p.ops|] == p.ops;
  }

  lemma ActKeeps(p: Protocol, action: Action, programs: seq<seq<Request>>, maxRead: nat)
    requires ProtocolInv(p, programs, maxRead) && Enabled(p, action)
    ensures ProtocolInv(Act(p, action), programs, maxRead)
  {
    match action {
      case Send(t) => SendKeeps(p, t, programs, maxRead);
      case Wake(t) =>
        assert Pending(Act(p, action)) == Pending(p);
      case Collect =>
        assert Pending(Act(p, action)) == Pending(p);
      case ApplyNext => ApplyNextKeeps(p, programs, maxRead);
      case PollReturns(batch) => PollKeeps(p, batch, programs, maxRead);
    }
  }

  lemma StartKeeps(programs: seq<seq<Request>>, maxRead: nat)
    ensures ProtocolInv(Start(programs, maxRead), programs, maxRead)
  {
  }

  /** Under every interleaving of the threads with each other and with the loop: the transport is in the state
      of the direct calls in the order of `applied`; each thread's requests are in there, or on their way, in
      its program order, none lost and none doubled; and the loop never waits in poll on a request whose
      thread has woken it. */
  lemma {:induction false} Linearization(programs: seq<seq<Request>>, maxRead: nat, actions: seq<Action>)
    requires Run(Start(programs, maxRead), actions).Some?
    ensures ProtocolInv(Run(Start(programs, maxRead), actions).value, programs, maxRead)
    decreases |actions|
  {
    hide ProtocolInv, Act, Enabled;
    if actions == [] {
      StartKeeps(programs, maxRead);
    } else {
      Linearization(programs, maxRead, actions[..|actions| - 1]);
      ActKeeps(Run(Start(programs, maxRead), actions[..|actions| - 1]).value, actions[|actions| - 1], programs, maxRead);
    }
  }

  // ---------------------------------------------------------------------------
  // What gets queued
  // ---------------------------------------------------------------------------

  /** A step that queues nothing: every queue is what it was, or that of a new life. */
  ghost predicate QueuesKept(s: Tcp, s': Tcp) {
    forall id :: id in s'.hist ==> s'.hist[id].queued == [] || (id in s.hist && s'.hist[id].queued == s.hist[id].queued)
  }

  lemma {:induction false} AcceptKeepsQueues(s: Tcp, n: nat)
    requires Room(s, n)
    ensures QueuesKept(s, AcceptMany(s, n).0)
  {
    hide NextAfterBirth;
    if n > 0 {
      AcceptKeepsQueues(s, n - 1);
    }
  }

  lemma {:induction false} AnnounceKeepsQueues(s: Tcp, ids: seq<nat>)
    ensures QueuesKept(s, EmitConnected(s, ids))
  {
    if ids != [] {
      AnnounceKeepsQueues(s, ids[..|ids| - 1]);
    }
  }

  lemma AcceptPhaseKeepsQueues(s: Tcp, script: seq<AcceptResult>)
    requires AcceptPhase(s, script).Running?
    ensures QueuesKept(s, AcceptPhase(s, script).s)
  {
    hide AcceptMany, EmitConnected, AcceptSummary;
    var n := AcceptSummary(script).value;
    var (s1, ids) := AcceptMany(s, n);
    AcceptKeepsQueues(s, n);
    AnnounceKeepsQueues(Track(s1, n == 0).s, ids);
  }

  lemma PhasesKeepQueues(s: Tcp, ev: PollEvent)
    requires ev.token in s.connections
    ensures !ReadPhase(s, ev).Stops? ==> QueuesKept(s, ReadPhase(s, ev).s)
    ensures !WritePhase(s, ev).Stops? ==> QueuesKept(s, WritePhase(s, ev).s)
  {
    hide ReadSummary, WriteSummary;
  }

  lemma TokenKeepsQueues(s: Tcp, disconnected: set<nat>, ev: PollEvent)
    requires HandleToken(s, disconnected, ev).Next?
    ensures QueuesKept(s, HandleToken(s, disconnected, ev).s)
  {
    hide AcceptPhase, ReadPhase, WritePhase;
    if ev.token in s.listeners {
      if AcceptPhase(s, ev.acceptScript).Running? {
        AcceptPhaseKeepsQueues(s, ev.acceptScript);
      }
    }
    if ev.token in s.connections {
      PhasesKeepQueues(s, ev);
      var r := ReadPhase(s, ev);
      if r.Stays? && ev.token in r.s.connections {
        PhasesKeepQueues(r.s, ev);
      }
    }
  }

  lemma {:induction false} BatchKeepsQueues(s: Tcp, events: seq<PollEvent>)
    requires HandleBatch(s, events).Next?
    ensures QueuesKept(s, HandleBatch(s, events).s)
  {
    hide HandleToken;
    if events != [] {
      BatchKeepsQueues(s, events[..|events| - 1]);
      var b := HandleBatch(s, events[..|events| - 1]);
      TokenKeepsQueues(b.s, b.disconnected, events[|events| - 1]);
    }
  }

  /** Every buffer queued on any connection has the property. */
  ghost predicate AllQueued(s: Tcp, ok: bytes -> bool) {
    forall id, i :: id in s.hist && 0 <= i < |s.hist[id].queued| ==> ok(s.hist[id].queued[i])
  }

  ghost predicate AllSent(ops: seq<Op>, ok: bytes -> bool) {
    forall i :: 0 <= i < |ops| && ops[i].Call? && Sends(ops[i].request) ==> ok(ops[i].request.data)
  }

  lemma MulticastQueues(s: Tcp, targets: multiset<nat>, data: bytes, ok: bytes -> bool)
    requires AllQueued(s, ok) && ok(data)
    ensures AllQueued(Multicast(s, targets, data), ok)
  {
    var s' := Multicast(s, targets, data);
    forall id, i | id in s'.hist && 0 <= i < |s'.hist[id].queued|
      ensures ok(s'.hist[id].queued[i])
    {
      assert i >= |s.hist[id].queued| ==> s'.hist[id].queued[i] == Repeat(data, targets[id])[i - |s.hist[id].queued|];
      assert i < |s.hist[id].queued| ==> s'.hist[id].queued[i] == s.hist[id].queued[i];
    }
  }

  lemma StepQueues(s: Tcp, op: Op, ok: bytes -> bool)
    requires AllQueued(s, ok) && Step(s, op).Running?
    requires op.Call? && Sends(op.request) ==> ok(op.request.data)
    ensures AllQueued(Step(s, op).s, ok)
  {
    hide Multicast, HandleBatch, NextAfterBirth, Polled;
    match op {
      case Poll(batch) =>
        if !(s.connections == map[] && s.listeners == {}) {
          BatchKeepsQueues(s, Polled(batch, s.registered.Keys));
        }
      case Call(request) =>
        if Sends(request) {
          MulticastQueues(s, match request
                             case SendTo(id, _) => multiset{id}
                             case SendToMany(ids, _) => multiset(ids)
                             case Broadcast(_) => multiset(s.connections.Keys)
                             case BroadcastExcept(_, exceptId) => multiset(s.connections.Keys - {exceptId})
                             case BroadcastExceptMany(_, exceptIds) =>
                               multiset(s.connections.Keys - (set id | id in exceptIds)), request.data, ok);
        }
    }
  }

  /** Buffers are queued whole: if all data sent in a run has a property, such as being one frame, then every
      connection's queue is a sequence of such buffers, none cut, merged or interleaved. */
  lemma {:induction false} QueuesHoldWholeBuffers(maxRead: nat, ops: seq<Op>, s: Tcp, ok: bytes -> bool)
    requires Reaches(maxRead, ops, s) && AllSent(ops, ok)
    ensures AllQueued(s, ok)
    decreases |ops|
  {
    if ops != [] {
      var init := ops[..|ops| - 1];
      assert Exec(Init(maxRead), init).Running?;
      var mid := Exec(Init(maxRead), init).s;
      QueuesHoldWholeBuffers(maxRead, init, mid, ok);
      StepQueues(mid, ops[|ops| - 1], ok) by { hide AllQueued; }
    }
  }
}
