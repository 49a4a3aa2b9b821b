/**
 From the transport through the messenger to the worker queue: Inactive is always reported alone, and after
 `close_all` nothing else is reported, so that the workers of the pool end.
 */
module Shutdown {
  import opened Bytes
  import opened TransportTypes
  import TcpModel
  import TcpTheorems
  import opened TcpObject
  import opened Framing
  import opened Reassembly
  import WorkerQueue

  // ---------------------------------------------------------------------------
  // The transport
  // ---------------------------------------------------------------------------

  /** The machine has told some more, none of it Inactive. */
  ghost predicate Busy(s: TcpModel.Tcp, s': TcpModel.Tcp) {
    s.out <= s'.out && forall i :: |s.out| <= i < |s'.out| ==> !s'.out[i].Inactive?
  }

  lemma BusyThen(s: TcpModel.Tcp, s1: TcpModel.Tcp, s2: TcpModel.Tcp)
    requires Busy(s, s1) && Busy(s1, s2)
    ensures Busy(s, s2)
  {
    forall i | |s.out| <= i < |s2.out|
      ensures !s2.out[i].Inactive?
    {
      assert i < |s1.out| ==> s2.out[i] == s1.out[i];
    }
  }

  lemma {:induction false} AnnouncingIsBusy(s: TcpModel.Tcp, ids: seq<nat>)
    ensures Busy(s, TcpModel.EmitConnected(s, ids))
  {
    if ids != [] {
      AnnouncingIsBusy(s, ids[..|ids| - 1]);
    }
  }

  lemma {:induction false} AcceptingIsSilent(s: TcpModel.Tcp, n: nat)
    requires TcpModel.Room(s, n)
    ensures TcpModel.AcceptMany(s, n).0.out == s.out
  {
    hide TcpModel.NextAfterBirth;
    if n > 0 {
      AcceptingIsSilent(s, n - 1);
    }
  }

  lemma AcceptIsBusy(s: TcpModel.Tcp, script: seq<AcceptResult>)
    requires TcpModel.AcceptPhase(s, script).Running?
    ensures Busy(s, TcpModel.AcceptPhase(s, script).s)
  {
    hide TcpModel.AcceptMany, AcceptSummary, TcpModel.EmitConnected, TcpModel.Room;
    var n := AcceptSummary(script).value;
    AcceptingIsSilent(s, n);
    var (s1, ids) := TcpModel.AcceptMany(s, n);
    AnnouncingIsBusy(TcpModel.Track(s1, n == 0).s, ids);
  }

  lemma ReadIsBusy(s: TcpModel.Tcp, ev: TcpModel.PollEvent)
    requires ev.token in s.connections && !TcpModel.ReadPhase(s, ev).Stops?
    ensures Busy(s, TcpModel.ReadPhase(s, ev).s)
  {
    hide TcpModel.ReadSummary;
  }

  lemma WriteIsBusy(s: TcpModel.Tcp, ev: TcpModel.PollEvent)
    requires ev.token in s.connections && !TcpModel.WritePhase(s, ev).Stops?
    ensures Busy(s, TcpModel.WritePhase(s, ev).s)
  {
    var w := TcpModel.WriteConnection(s, ev.token, ev.socketError, ev.writeScript);
    assert w.s.out == s.out by { hide TcpModel.WriteSummary; }
    hide TcpModel.WriteConnection;
  }

  lemma TokenIsBusy(s: TcpModel.Tcp, disconnected: set<nat>, ev: TcpModel.PollEvent)
    requires TcpModel.HandleToken(s, disconnected, ev).Next?
    ensures Busy(s, TcpModel.HandleToken(s, disconnected, ev).s)
  {
    hide TcpModel.AcceptPhase, TcpModel.ReadPhase, TcpModel.WritePhase, Busy;
    BusyNot(s);
    if ev.token in s.listeners && TcpModel.AcceptPhase(s, ev.acceptScript).Running? {
      AcceptIsBusy(s, ev.acceptScript);
    }
    if ev.token in s.connections && !TcpModel.ReadPhase(s, ev).Stops? {
      ReadIsBusy(s, ev);
      var s1 := TcpModel.ReadPhase(s, ev).s;
      if ev.token in s1.connections && !TcpModel.WritePhase(s1, ev).Stops? {
        WriteIsBusy(s1, ev);
        BusyThen(s, s1, TcpModel.WritePhase(s1, ev).s);
      }
    }
  }

  lemma BusyNot(s: TcpModel.Tcp)
    ensures Busy(s, s)
  {
  }

  lemma {:induction false} BatchIsBusy(s: TcpModel.Tcp, events: seq<TcpModel.PollEvent>)
    requires TcpModel.HandleBatch(s, events).Next?
    ensures Busy(s, TcpModel.HandleBatch(s, events).s)
  {
    hide TcpModel.HandleToken;
    if events != [] {
      BatchIsBusy(s, events[..|events| - 1]);
      var b := TcpModel.HandleBatch(s, events[..|events| - 1]);
      hide Busy;
      TokenIsBusy(b.s, b.disconnected, events[|events| - 1]);
      BusyThen(s, b.s, TcpModel.HandleBatch(s, events).s);
    }
  }

  /** Inactive alone, or no Inactive. */
  predicate Fair(events: seq<TransportEvent>) {
    events == [Inactive] || forall e :: e in events ==> !e.Inactive?
  }

  /** Every poll round of the TCP transport tells Inactive alone or not at all. */
  lemma PollRoundsAreFair(s: TcpModel.Tcp, batch: seq<TcpModel.PollEvent>)
    requires TcpModel.PollRound(s, batch).Running?
    ensures var s' := TcpModel.PollRound(s, batch).s; s.out <= s'.out && Fair(s'.out[|s.out|..])
  {
    if s.connections == map[] && s.listeners == {} {
    } else {
      BatchIsBusy(s, TcpModel.Polled(batch, s.registered.Keys));
      hide TcpModel.HandleBatch, TcpModel.Polled;
    }
  }

  /** A poll round tells Inactive exactly when there is neither a connection nor a listener, whatever was
      polled, and then tells nothing else. */
  lemma PollTellsInactiveIff(s: TcpModel.Tcp, batch: seq<TcpModel.PollEvent>)
    requires TcpModel.PollRound(s, batch).Running?
    ensures var s' := TcpModel.PollRound(s, batch).s;
            && s.out <= s'.out
            && (Inactive in s'.out[|s.out|..] <==> s.connections == map[] && s.listeners == {})
            && (Inactive in s'.out[|s.out|..] ==> s'.out == s.out + [Inactive])
  {
    if s.connections == map[] && s.listeners == {} {
      assert (s.out + [Inactive])[|s.out|..] == [Inactive];
    } else {
      BatchIsBusy(s, TcpModel.Polled(batch, s.registered.Keys));
      hide TcpModel.HandleBatch, TcpModel.Polled;
    }
  }

  /** The state in which a call of `fetch_events` polls for the last time: the requests of that round have been
      processed, and nothing has been told. */
  ghost predicate PollsLast(s: TcpModel.Tcp, rounds: seq<Round>, polled: TcpModel.Tcp)
    requires rounds != []
  {
    var last := |rounds| - 1;
    TcpModel.Exec(s, OpsOf(rounds[..last]) + Calls(rounds[last].requests)) == TcpModel.Running(polled)
    && polled.out == s.out
  }

  lemma LastPoll(s: TcpModel.Tcp, rounds: seq<Round>, s': TcpModel.Tcp, events: seq<TransportEvent>)
    returns (polled: TcpModel.Tcp)
    requires Fetched(s, rounds, s', events)
    ensures rounds != [] && PollsLast(s, rounds, polled)
    ensures TcpModel.PollRound(polled, rounds[|rounds| - 1].batch) == TcpModel.Running(s')
    ensures s'.out[|polled.out|..] == events
  {
    hide TcpModel.PollRound, TcpModel.Apply;
    TcpModel.ExecNothing(s);
    assert rounds == [] ==> OpsOf(rounds) == [];
    assert s.out + events == s.out ==> events == [];
    var k := |rounds| - 1;
    assert ToldNothing(s, rounds, k);
    var (before, last) := (OpsOf(rounds[..k]), rounds[k]);
    var mid := TcpModel.Exec(s, before).s;
    TcpModel.ExecConcat(s, before, Calls(last.requests) + [TcpModel.Poll(last.batch)]);
    TcpModel.ExecConcat(mid, Calls(last.requests), [TcpModel.Poll(last.batch)]);
    TcpModel.ExecConcat(s, before, Calls(last.requests));
    CallsKeepOut(mid, last.requests);
    polled := TcpModel.Exec(mid, Calls(last.requests)).s;
    TcpModel.ExecOne(polled, TcpModel.Poll(last.batch));
  }

  /** Every call of `fetch_events` is fair, too. */
  lemma FetchIsFair(s: TcpModel.Tcp, rounds: seq<Round>, s': TcpModel.Tcp, events: seq<TransportEvent>)
    requires Fetched(s, rounds, s', events)
    ensures Fair(events)
  {
    hide TcpModel.PollRound, TcpModel.Exec, Fair;
    var polled := LastPoll(s, rounds, s', events);
    PollRoundsAreFair(polled, rounds[|rounds| - 1].batch);
  }

  /** A call of `fetch_events` returns Inactive exactly when its last poll found neither a connection nor a listener:
      never on a server that is listening. */
  lemma FetchTellsInactiveIff(s: TcpModel.Tcp, rounds: seq<Round>, s': TcpModel.Tcp, events: seq<TransportEvent>,
                              polled: TcpModel.Tcp)
    requires Fetched(s, rounds, s', events) && rounds != [] && PollsLast(s, rounds, polled)
    ensures Inactive in events <==> polled.connections == map[] && polled.listeners == {}
    ensures Inactive in events ==> events == [Inactive]
  {
    hide TcpModel.PollRound, TcpModel.Exec;
    var last := LastPoll(s, rounds, s', events);
    assert last == polled;
    PollTellsInactiveIff(polled, rounds[|rounds| - 1].batch);
  }

  /** The call in which `close_all` is processed, with nothing granted after it, returns with exactly one Inactive
      and leaves the transport closed. */
  lemma CloseDuringFetch(s: TcpModel.Tcp, rounds: seq<Round>, s': TcpModel.Tcp, events: seq<TransportEvent>,
                         j: nat, i: nat)
    requires Fetched(s, rounds, s', events)
    requires j < |rounds| && i < |rounds[j].requests| && rounds[j].requests[i] == TcpModel.CloseAll
    requires TcpTheorems.Quiet(Calls(rounds[j].requests[i + 1..]))
    ensures j == |rounds| - 1 && events == [Inactive] && TcpTheorems.Closed(s')
  {
    hide TcpModel.PollRound, TcpModel.Apply, TcpTheorems.Closed, TcpTheorems.Quiet;
    CloseInRound(s, rounds, j, i);
    assert j + 1 < |rounds| ==> ToldNothing(s, rounds, j + 1);
    assert rounds[..j + 1] == rounds;
    assert events == s'.out[|s.out|..];
  }

  lemma CloseInRound(s: TcpModel.Tcp, rounds: seq<Round>, j: nat, i: nat)
    requires j < |rounds| && i < |rounds[j].requests| && rounds[j].requests[i] == TcpModel.CloseAll
    requires TcpTheorems.Quiet(Calls(rounds[j].requests[i + 1..])) && ToldNothing(s, rounds, j)
    ensures var r := TcpModel.Exec(s, OpsOf(rounds[..j + 1]));
            r.Running? ==> r.s.out == s.out + [Inactive] && TcpTheorems.Closed(r.s)
  {
    hide TcpModel.PollRound, TcpModel.Apply, TcpTheorems.Closed, TcpTheorems.Quiet;
    var (requests, poll) := (rounds[j].requests, [TcpModel.Poll(rounds[j].batch)]);
    var (first, rest) := (requests[..i], requests[i + 1..]);
    var mid := TcpModel.Exec(s, OpsOf(rounds[..j])).s;
    OpsOfSnoc(rounds, j + 1);
    assert rounds[..j + 1][..j] == rounds[..j];
    TcpModel.ExecConcat(s, OpsOf(rounds[..j]), Calls(requests) + poll);
    var close: seq<TcpModel.Op> := [TcpModel.Call(TcpModel.CloseAll)];
    assert Calls(requests) + poll == Calls(first) + (close + (Calls(rest) + poll));
    TcpModel.ExecConcat(mid, Calls(first), close + (Calls(rest) + poll));
    CallsKeepOut(mid, first);
    if TcpModel.Exec(mid, Calls(first)).Running? {
      var s1 := TcpModel.Exec(mid, Calls(first)).s;
      TcpModel.ExecConcat(s1, close, Calls(rest) + poll);
      TcpModel.ExecOne(s1, close[0]);
      QuietPoll(rest, rounds[j].batch);
      TcpTheorems.AfterCloseAllOnlyInactive(s1, Calls(rest) + poll);
      AllClosed(s1);
    }
  }

  lemma QuietPoll(requests: seq<TcpModel.Request>, batch: seq<TcpModel.PollEvent>)
    requires TcpTheorems.Quiet(Calls(requests))
    ensures TcpTheorems.Quiet(Calls(requests) + [TcpModel.Poll(batch)])
    ensures TcpTheorems.Inactives(Calls(requests) + [TcpModel.Poll(batch)]) == [Inactive]
  {
    CallsTellNothing(requests);
    assert (Calls(requests) + [TcpModel.Poll(batch)])[..|requests|] == Calls(requests);
    assert [] + [Inactive] == [Inactive];
  }

  lemma AllClosed(s: TcpModel.Tcp)
    ensures TcpModel.Apply(s, TcpModel.CloseAll).Running? && TcpModel.Apply(s, TcpModel.CloseAll).s.out == s.out
    ensures forall s': TcpModel.Tcp :: s'.connections == map[] && s'.listeners == {} ==> TcpTheorems.Closed(s')
  {
  }

  // ---------------------------------------------------------------------------
  // The messenger
  // ---------------------------------------------------------------------------

  lemma {:induction false} NothingToSkip(es: seq<TransportEvent>)
    requires forall e :: e in es ==> !e.Inactive?
    ensures UpToInactive(es) == es
  {
    if es != [] {
      NothingToSkip(es[1..]);
    }
  }

  lemma {:induction false} BusyMessenger<M(!new), C(!new)>(w: Wire<M, C>, st: MState<M, C>, es: seq<TransportEvent>)
    requires w.Safe() && forall e :: e in es ==> !e.Inactive?
    ensures st.out <= OnEvents(w, st, es).out
    ensures forall i :: |st.out| <= i < |OnEvents(w, st, es).out| ==> !OnEvents(w, st, es).out[i].MInactive?
  {
    hide ScanAll;
    if es != [] {
      BusyMessenger(w, st, es[..|es| - 1]);
      assert es[|es| - 1] in es;
    }
  }

  /** The queue's view of the messenger's events. */
  function Queued<M, C>(out: seq<MessengerEvent<M, C>>): seq<WorkerQueue.Event<MessengerEvent<M, C>>> {
    seq(|out|, i requires 0 <= i < |out| => if out[i].MInactive? then WorkerQueue.Inactive else WorkerQueue.Work(out[i]))
  }

  lemma BatchStaysFair<M(!new), C(!new)>(w: Wire<M, C>, st: MState<M, C>, events: seq<TransportEvent>)
    requires w.Safe() && Fair(events) && st.out == []
    ensures WorkerQueue.FairBatch(Queued(OnEvents(w, st, UpToInactive(events)).out))
    ensures events == [Inactive] ==> OnEvents(w, st, UpToInactive(events)).out == [MInactive]
  {
    if events == [Inactive] {
      assert UpToInactive(events) == [Inactive];
      assert OnEvents(w, st, [Inactive][..0]) == st;
      var out: seq<MessengerEvent<M, C>> := [MInactive];
      assert Queued(out) == [WorkerQueue.Inactive];
    } else {
      NothingToSkip(events);
      BusyMessenger(w, st, events);
      hide OnEvents, UpToInactive;
    }
  }

  /** What one `fetch_events` of the messenger returns, when the transport's batches are fair: a fair batch, as
      the worker queue relies on. */
  lemma MessengerFetchesAreFair<M(!new), C(!new)>(w: Wire<M, C>, st: MState<M, C>, batches: seq<seq<TransportEvent>>)
    requires w.Safe() && st.out == []
    requires forall i :: 0 <= i < |batches| ==> Fair(batches[i])
    requires forall k | 0 <= k < |batches| :: OnBatches(w, st, batches[..k]).out == []
    ensures WorkerQueue.FairBatch(Queued(OnBatches(w, st, batches).out))
  {
    hide OnEvents, UpToInactive;
    if batches != [] {
      var k := |batches| - 1;
      assert OnBatches(w, st, batches[..k]).out == [];
      BatchStaysFair(w, OnBatches(w, st, batches[..k]), batches[k]);
    }
  }

  // ---------------------------------------------------------------------------
  // One fetch of the messenger, over the transport
  // ---------------------------------------------------------------------------

  /** One call of the transport's `fetch_events`, after the closes the messenger made since the last one. */
  datatype TransportCall = TransportCall(requests: seq<TcpModel.Request>, rounds: seq<Round>)

  ghost predicate Answers(s: TcpModel.Tcp, call: TransportCall, s': TcpModel.Tcp, events: seq<TransportEvent>) {
    var r := TcpModel.Exec(s, Calls(call.requests));
    r.Running? && Fetched(r.s, call.rounds, s', events)
  }

  predicate QuietCall(call: TransportCall) {
    TcpTheorems.Quiet(Calls(call.requests)) && QuietRounds(call.rounds)
  }

  /** The transport and the receive buffers above it. */
  datatype Service = Service(tcp: TcpModel.Tcp, buffers: map<nat, bytes>)

  /** The transport's calls within one fetch of the messenger, the states between them and their answers. */
  datatype Trace = Trace(calls: seq<TransportCall>, states: seq<TcpModel.Tcp>, batches: seq<seq<TransportEvent>>)

  /** `Messenger::fetch_events` takes batches from the transport until it can dispatch something. */
  ghost predicate IsFetch<M(!new), C(!new)>(w: Wire<M, C>, from: Service, to: Service, out: seq<MessengerEvent<M, C>>,
                                            quiet: bool, trace: Trace)
    requires w.Safe()
  {
    var (n, st) := (|trace.calls|, MState(from.buffers, [], []));
    && |trace.states| == n + 1 && |trace.batches| == n
    && trace.states[0] == from.tcp && trace.states[n] == to.tcp
    && (forall i :: 0 <= i < n ==>
          && Answers(trace.states[i], trace.calls[i], trace.states[i + 1], trace.batches[i])
          && (quiet ==> QuietCall(trace.calls[i])))
    && (forall k | 0 <= k < n :: OnBatches(w, st, trace.batches[..k]).out == [])
    && OnBatches(w, st, trace.batches).out == out && out != []
    && OnBatches(w, st, trace.batches).buffers == to.buffers
  }

  ghost predicate Delivers<M(!new), C(!new)>(w: Wire<M, C>, from: Service, to: Service,
                                             batch: seq<WorkerQueue.Event<MessengerEvent<M, C>>>, quiet: bool)
    requires w.Safe()
  {
    exists trace, out :: IsFetch(w, from, to, out, quiet, trace) && batch == Queued(out)
  }

  lemma TraceIsFair(s: TcpModel.Tcp, call: TransportCall, s': TcpModel.Tcp, events: seq<TransportEvent>)
    requires Answers(s, call, s', events)
    ensures Fair(events)
  {
    FetchIsFair(TcpModel.Exec(s, Calls(call.requests)).s, call.rounds, s', events);
  }

  lemma DeliveriesAreFair<M(!new), C(!new)>(w: Wire<M, C>, from: Service, to: Service,
                                            batch: seq<WorkerQueue.Event<MessengerEvent<M, C>>>, quiet: bool)
    requires w.Safe() && Delivers(w, from, to, batch, quiet)
    ensures WorkerQueue.FairBatch(batch)
  {
    hide Fair, Queued, OnBatches, Answers, QuietCall, WorkerQueue.FairBatch;
    var trace, out :| IsFetch(w, from, to, out, quiet, trace) && batch == Queued(out);
    forall i | 0 <= i < |trace.batches|
      ensures Fair(trace.batches[i])
    {
      TraceIsFair(trace.states[i], trace.calls[i], trace.states[i + 1], trace.batches[i]);
    }
    MessengerFetchesAreFair(w, MState(from.buffers, [], []), trace.batches);
  }

  lemma ClosedAnswer(s: TcpModel.Tcp, call: TransportCall, s': TcpModel.Tcp, events: seq<TransportEvent>)
    requires TcpTheorems.Closed(s) && QuietCall(call) && Answers(s, call, s', events)
    ensures events == [Inactive] && TcpTheorems.Closed(s')
  {
    hide TcpTheorems.Closed, TcpTheorems.Quiet, QuietRounds, Fetched;
    TcpTheorems.ClosedStaysClosed(s, Calls(call.requests));
    ClosedFetch(TcpModel.Exec(s, Calls(call.requests)).s, call.rounds, s', events);
  }

  lemma ClosedTrace<M(!new), C(!new)>(w: Wire<M, C>, from: Service, to: Service, out: seq<MessengerEvent<M, C>>,
                                      trace: Trace)
    requires w.Safe() && TcpTheorems.Closed(from.tcp) && IsFetch(w, from, to, out, true, trace)
    requires OnBatches(w, MState(from.buffers, [], []), []).out == []
    requires OnBatches(w, MState(from.buffers, [], []), [[Inactive]]).out == [MInactive]
    ensures out == [MInactive] && TcpTheorems.Closed(to.tcp)
  {
    hide TcpTheorems.Closed, OnBatches, Answers, QuietCall;
    assert trace.batches != [];
    ClosedAnswer(trace.states[0], trace.calls[0], trace.states[1], trace.batches[0]);
    assert trace.batches[..1] == [[Inactive]];
    assert |trace.batches| == 1 && trace.batches == trace.batches[..1];
  }

  /** On a closed transport a fetch of the messenger returns exactly one Inactive. */
  lemma ClosedDelivery<M(!new), C(!new)>(w: Wire<M, C>, from: Service, to: Service,
                                         batch: seq<WorkerQueue.Event<MessengerEvent<M, C>>>)
    requires w.Safe() && TcpTheorems.Closed(from.tcp) && Delivers(w, from, to, batch, true)
    ensures batch == [WorkerQueue.Inactive] && TcpTheorems.Closed(to.tcp)
  {
    var st: MState<M, C> := MState(from.buffers, [], []);
    assert OnBatches(w, st, []) == st;
    ClosedMessengerFetches(w, st);
    var trace, out :| IsFetch(w, from, to, out, true, trace) && batch == Queued(out);
    hide TcpTheorems.Closed, OnBatches, Queued, IsFetch;
    ClosedTrace(w, from, to, out, trace);
  }

  /** The messenger's answer to one Inactive of the transport. */
  lemma ClosedMessengerFetches<M(!new), C(!new)>(w: Wire<M, C>, st: MState<M, C>)
    requires w.Safe() && st.out == []
    ensures OnBatches(w, st, [[Inactive]]).out == [MInactive]
    ensures Queued(OnBatches(w, st, [[Inactive]]).out) == [WorkerQueue.Inactive]
  {
    hide OnEvents, UpToInactive;
    BatchStaysFair(w, st, [Inactive]);
    assert [[Inactive]][..0] == [];
    assert OnBatches(w, st, []) == st;
  }

  // ---------------------------------------------------------------------------
  // The pool, over the messenger
  // ---------------------------------------------------------------------------

  /** The fetches among the workers' steps are served, in order, by the messenger over the transport: between
      step i and the next the service is `services[i + 1]`. During a fetch any requests may arrive; `quiet` says
      that none is granted anything. */
  ghost predicate Served<M(!new), C(!new)>(w: Wire<M, C>, services: seq<Service>,
                                           steps: seq<WorkerQueue.Step<MessengerEvent<M, C>>>, quiet: bool)
    requires w.Safe()
  {
    && |services| == |steps| + 1
    && forall i :: 0 <= i < |steps| ==> ServedStep(w, services[i], steps[i], services[i + 1], quiet)
  }

  ghost predicate ServedStep<M(!new), C(!new)>(w: Wire<M, C>, from: Service,
                                               step: WorkerQueue.Step<MessengerEvent<M, C>>, to: Service, quiet: bool)
    requires w.Safe()
  {
    if step.Fetch? then Delivers(w, from, to, step.batch, quiet) else to == from
  }

  /** What the worker queue relies on is what the transport does. */
  lemma ServedBatchesAreFair<M(!new), C(!new)>(
    w: Wire<M, C>, services: seq<Service>, steps: seq<WorkerQueue.Step<MessengerEvent<M, C>>>, quiet: bool)
    requires w.Safe() && Served(w, services, steps, quiet)
    ensures WorkerQueue.FairBatches(steps)
  {
    hide Delivers, WorkerQueue.FairBatch;
    forall i | 0 <= i < |steps| && steps[i].Fetch?
      ensures WorkerQueue.FairBatch(steps[i].batch)
    {
      assert ServedStep(w, services[i], steps[i], services[i + 1], quiet);
      DeliveriesAreFair(w, services[i], services[i + 1], steps[i].batch, quiet);
    }
  }

  /** Once the transport is closed, every fetch of every worker returns exactly [Inactive]. */
  lemma {:induction false} ServedAfterClose<M(!new), C(!new)>(
    w: Wire<M, C>, services: seq<Service>, steps: seq<WorkerQueue.Step<MessengerEvent<M, C>>>, k: nat)
    requires w.Safe() && Served(w, services, steps, true) && TcpTheorems.Closed(services[0].tcp) && k <= |steps|
    ensures TcpTheorems.Closed(services[k].tcp) && WorkerQueue.AfterClose(steps[..k])
    decreases k
  {
    hide Delivers, TcpTheorems.Closed;
    if k > 0 {
      ServedAfterClose(w, services, steps, k - 1);
      assert ServedStep(w, services[k - 1], steps[k - 1], services[k], true);
      if steps[k - 1].Fetch? {
        ClosedDelivery(w, services[k - 1], services[k], steps[k - 1].batch);
      }
      assert forall i :: 0 <= i < k - 1 ==> steps[..k][i] == steps[..k - 1][i];
    }
  }

  /** The whole chain: workers fetch from a messenger over a TCP transport, under any schedule and with any
      requests arriving. Once the transport is closed and nothing is granted any more, only boundedly many steps
      are left, and when none is, every worker has ended after one Inactive and every event was handled. */
  lemma PoolShutsDown<M(!new), C(!new)>(
    w: Wire<M, C>, n: nat,
    services: seq<Service>, before: seq<WorkerQueue.Step<MessengerEvent<M, C>>>,
    closed: seq<Service>, steps: seq<WorkerQueue.Step<MessengerEvent<M, C>>>)
    requires w.Safe() && n > 0
    requires WorkerQueue.Runs(WorkerQueue.Start(n), before) && Served(w, services, before, false)
    requires WorkerQueue.Runs(WorkerQueue.After(WorkerQueue.Start(n), before), steps) && Served(w, closed, steps, true)
    requires TcpTheorems.Closed(closed[0].tcp)
    ensures |steps| <= WorkerQueue.Measure(WorkerQueue.After(WorkerQueue.Start(n), before))
    ensures var s := WorkerQueue.After(WorkerQueue.After(WorkerQueue.Start(n), before), steps);
            !WorkerQueue.CanGoOn(s) ==> |s.workers| == n && WorkerQueue.CleanEnd(s)
  {
    hide Served, TcpTheorems.Closed, WorkerQueue.PoolOk, WorkerQueue.TailOk, WorkerQueue.Measure, WorkerQueue.CleanEnd;
    hide WorkerQueue.CanGoOn, WorkerQueue.AfterClose, WorkerQueue.FairBatches;
    ServedBatchesAreFair(w, services, before, false);
    assert steps[..|steps|] == steps;
    assert |closed| == |steps| + 1 by { ServedLength(w, closed, steps, true); }
    ServedAfterClose(w, closed, steps, |steps|);
    var s0: WorkerQueue.Pool<MessengerEvent<M, C>> := WorkerQueue.Start(n);
    WorkerQueue.StartOk<MessengerEvent<M, C>>(n);
    WorkerQueue.EveryRunKeeps(s0, before);
    var s1 := WorkerQueue.After(s0, before);
    WorkerQueue.ShutdownTerminates(s1, steps);
    if !WorkerQueue.CanGoOn(WorkerQueue.After(s1, steps)) {
      WorkerQueue.ShutdownIsClean(n, before, steps);
    }
  }

  lemma ServedLength<M(!new), C(!new)>(w: Wire<M, C>, services: seq<Service>,
                                       steps: seq<WorkerQueue.Step<MessengerEvent<M, C>>>, quiet: bool)
    requires w.Safe() && Served(w, services, steps, quiet)
    ensures |services| == |steps| + 1
  {
  }
}
