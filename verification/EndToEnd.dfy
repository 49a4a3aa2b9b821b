/**
 End-to-end delivery: typed messages through frames, the sender's buffer, partial writes, the network,
 chunked reads and reassembly, for any run of the sending and of the receiving transport.
 */
module EndToEnd {
  import opened Bytes
  import opened Framing
  import opened TransportTypes
  import opened Reassembly
  import opened TcpModel
  import opened TcpProofs
  import opened TcpTheorems
  import opened Interface

  /** The network keeps TCP's promise on this link: what the receiving socket has handed over is a prefix of
      what the sending socket has accepted. */
  predicate Link(tx: Tcp, a: nat, rx: Tcp, b: nat)
    requires a in tx.hist && b in rx.hist
  {
    rx.hist[b].received <= tx.hist[a].written
  }

  /** The connection has carried exactly the frames of `items`. */
  ghost predicate Carries<M(!new), C(!new)>(w: Wire<M, C>, tx: Tcp, a: nat, items: seq<(M, C)>) {
    AllSendable(w, items) && a in tx.hist && tx.hist[a].queued == Frames(w, items)
  }

  /** What the receiving messenger has made of the events its transport handed out. */
  function Dispatched<M, C>(w: Wire<M, C>, seen: seq<TransportEvent>): MState<M, C>
    requires w.Safe()
  {
    OnEvents(w, MState(map[], [], []), seen)
  }

  lemma {:induction false} EventsOfPrefix(es: seq<TransportEvent>, k: nat, id: nat)
    requires k <= |es|
    ensures Received(EventsOf(es[..k], id)) <= Received(EventsOf(es, id))
  {
    assert es == es[..k] + es[k..];
    EventsOfConcat(es[..k], es[k..], id);
    ReceivedConcat(EventsOf(es[..k], id), EventsOf(es[k..], id));
  }

  lemma {:induction false} OrderlyPrefix(es: seq<TransportEvent>, k: nat, id: nat)
    requires k <= |es| && Orderly(es, id)
    ensures Orderly(es[..k], id)
    decreases |es|
  {
    if k == |es| {
      assert es[..k] == es;
    } else {
      assert es[..|es| - 1][..k] == es[..k];
      OrderlyPrefix(es[..|es| - 1], k, id);
    }
  }

  /** In its first lifetime, the bytes of a connection seen so far are a prefix of those its socket has handed
      over, and all of them once all events have been seen. */
  lemma FirstLifetimeOutput(rx: Tcp, b: nat, k: nat)
    requires Inv(rx, {}) && b in rx.hist && rx.hist[b].before == [] && k <= |rx.out|
    ensures Orderly(rx.out[..k], b)
    ensures Received(EventsOf(rx.out[..k], b)) <= rx.hist[b].received
    ensures k == |rx.out| ==> Received(EventsOf(rx.out[..k], b)) == rx.hist[b].received
  {
    assert IdOk(rx, b, false);
    assert Received(rx.hist[b].events) == rx.hist[b].received;
    assert OutputAt(rx, b);
    assert [] + rx.hist[b].events == rx.hist[b].events;
    hide LivesOk, OutputOk, RegistryOk, IdsOk, IdOk;
    OrderlyPrefix(rx.out, k, b);
    EventsOfPrefix(rx.out, k, b);
    assert k == |rx.out| ==> rx.out[..k] == rx.out;
  }

  /** Any orderly part of a stream of frames is dispatched as a prefix of the messages. */
  lemma PartOfFramesIsDispatched<M(!new), C(!new)>(w: Wire<M, C>, items: seq<(M, C)>, seen: seq<TransportEvent>, b: nat)
    requires Lawful(w) && AllSendable(w, items) && Orderly(seen, b)
    requires Received(EventsOf(seen, b)) <= Flatten(Frames(w, items))
    ensures MessagesOf(Dispatched(w, seen).out, b) <= items && b !in Dispatched(w, seen).closed
    ensures Received(EventsOf(seen, b)) == Flatten(Frames(w, items)) ==> MessagesOf(Dispatched(w, seen).out, b) == items
  {
    hide ScanAll, EventsOf, Received, MessagesOf, OnEvents, Frames, Flatten, Orderly, Undisturbed, AllSendable;
    ConnectionsAreIndependent(w, seen, b);
    PrefixDecodesToPrefix(w, items, Received(EventsOf(seen, b)));
  }

  /** Nothing is pending at the sender, and what its socket took has been handed over at the receiver. */
  predicate Drained(tx: Tcp, a: nat, rx: Tcp, b: nat)
    requires a in tx.hist && b in rx.hist
  {
    a in tx.connections && tx.connections[a].sendBuf == [] && rx.hist[b].received == tx.hist[a].written
  }

  /** The bytes of the link on their way through both transports. */
  lemma BytesArrive(maxTx: nat, txOps: seq<Op>, tx: Tcp, a: nat, maxRx: nat, rxOps: seq<Op>, rx: Tcp, b: nat, k: nat)
    requires Reaches(maxTx, txOps, tx) && Reaches(maxRx, rxOps, rx) && a in tx.hist
    requires b in rx.hist && rx.hist[b].before == [] && Link(tx, a, rx, b) && k <= |rx.out|
    ensures Orderly(rx.out[..k], b) && Received(EventsOf(rx.out[..k], b)) <= Flatten(tx.hist[a].queued)
    ensures Drained(tx, a, rx, b) && k == |rx.out| ==>
              Received(EventsOf(rx.out[..k], b)) == Flatten(tx.hist[a].queued)
  {
    ReachableInv(maxRx, rxOps, rx);
    var lives := Lives(tx, a);
    OutgoingByteConservation(maxTx, txOps, tx, a, |lives| - 1);
    assert lives[|lives| - 1] == ThisLife(tx.hist[a]);
    FirstLifetimeOutput(rx, b, k);
    hide Inv, Reaches, Lives, EventsOf, Received, Flatten, Orderly;
    assert tx.hist[a].written + [] == tx.hist[a].written;
  }

  /** Whatever sender and receiver did, and wherever the receiver is in its events: the messages it has
      dispatched for this connection are a prefix of the messages sent on it, in order, none lost, doubled or
      altered, and no decode error was seen. They are all of them once the send buffer is empty, everything
      written was read, and everything read was dispatched. */
  lemma EndToEndDelivery<M(!new), C(!new)>(
    w: Wire<M, C>, items: seq<(M, C)>,
    maxTx: nat, txOps: seq<Op>, tx: Tcp, a: nat,
    maxRx: nat, rxOps: seq<Op>, rx: Tcp, b: nat, k: nat)
    requires Lawful(w) && Carries(w, tx, a, items)
    requires Reaches(maxTx, txOps, tx) && Reaches(maxRx, rxOps, rx)
    requires b in rx.hist && rx.hist[b].before == [] && Link(tx, a, rx, b) && k <= |rx.out|
    ensures MessagesOf(Dispatched(w, rx.out[..k]).out, b) <= items
    ensures b !in Dispatched(w, rx.out[..k]).closed
    ensures Drained(tx, a, rx, b) && k == |rx.out| ==> MessagesOf(Dispatched(w, rx.out[..k]).out, b) == items
  {
    BytesArrive(maxTx, txOps, tx, a, maxRx, rxOps, rx, b, k);
    hide Reaches, Lawful, EventsOf, Received, MessagesOf, Frames, Flatten, Orderly, AllSendable, Dispatched, Drained;
    PartOfFramesIsDispatched(w, items, rx.out[..k], b);
  }

  /** A buffer is one whole frame. */
  ghost predicate IsFrame<M(!new), C(!new)>(w: Wire<M, C>, buffer: bytes) {
    exists item: (M, C) :: Sendable(w, item) && buffer == Frame(w, item.0, item.1)
  }

  lemma ExtendFrames<M(!new), C(!new)>(w: Wire<M, C>, items: seq<(M, C)>, item: (M, C)) returns (more: seq<(M, C)>)
    requires AllSendable(w, items) && Sendable(w, item)
    ensures AllSendable(w, more) && Frames(w, more) == Frames(w, items) + [Frame(w, item.0, item.1)]
  {
    hide Sendable, Frame;
    more := items + [item];
  }

  lemma {:induction false} FramesAreItems<M(!new), C(!new)>(w: Wire<M, C>,
      buffers: seq<bytes>) returns (items: seq<(M, C)>)
    requires forall i :: 0 <= i < |buffers| ==> IsFrame(w, buffers[i])
    ensures AllSendable(w, items) && Frames(w, items) == buffers
  {
    hide Frame, Payload;
    if buffers == [] {
      items := [];
    } else {
      var last := |buffers| - 1;
      items := FramesAreItems(w, buffers[..last]);
      assert IsFrame(w, buffers[last]);
      var item: (M, C) :| Sendable(w, item) && buffers[last] == Frame(w, item.0, item.1);
      items := ExtendFrames(w, items, item);
      assert buffers == buffers[..last] + [buffers[last]];
    }
  }

  /** A run that sends nothing but frames leaves on every connection the frames of some messages, in order:
      the assumption of end-to-end delivery. */
  lemma SendingFramesCarriesMessages<M(!new), C(!new)>(w: Wire<M, C>, maxTx: nat, txOps: seq<Op>, tx: Tcp, a: nat)
    requires Reaches(maxTx, txOps, tx) && a in tx.hist && AllSent(txOps, buffer => IsFrame(w, buffer))
    ensures exists items :: Carries(w, tx, a, items)
  {
    QueuesHoldWholeBuffers(maxTx, txOps, tx, buffer => IsFrame(w, buffer));
    var items := FramesAreItems(w, tx.hist[a].queued);
    assert Carries(w, tx, a, items);
  }

  // ---------------------------------------------------------------------------
  // The messenger's calls add up to one pass over the transport's output
  // ---------------------------------------------------------------------------

  function Joined(batches: seq<seq<TransportEvent>>): seq<TransportEvent> {
    if batches == [] then [] else Joined(batches[..|batches| - 1]) + batches[|batches| - 1]
  }

  lemma {:induction false} OnEventsConcat<M, C>(w: Wire<M, C>, st: MState<M, C>, a: seq<TransportEvent>,
      b: seq<TransportEvent>)
    requires w.Safe()
    ensures OnEvents(w, st, a + b) == OnEvents(w, OnEvents(w, st, a), b)
  {
    hide OnEvent;
    if b == [] {
      assert a + b == a;
    } else {
      assert (a + b)[..|a + b| - 1] == a + b[..|b| - 1];
      OnEventsConcat(w, st, a, b[..|b| - 1]);
    }
  }

  /** Batches in which nothing follows an Inactive, as the transport hands them out, are one stream. */
  lemma {:induction false} BatchesAreOneStream<M, C>(w: Wire<M, C>, st: MState<M, C>, batches: seq<seq<TransportEvent>>)
    requires w.Safe() && forall i :: 0 <= i < |batches| ==> UpToInactive(batches[i]) == batches[i]
    ensures OnBatches(w, st, batches) == OnEvents(w, st, Joined(batches))
  {
    hide OnEvent, UpToInactive;
    if batches != [] {
      var init, last := batches[..|batches| - 1], batches[|batches| - 1];
      BatchesAreOneStream(w, st, init);
      OnEventsConcat(w, st, Joined(init), last);
    }
  }

  /** What one call returns does not depend on what earlier calls returned, so the results of consecutive
      calls put together are those of one. */
  lemma {:induction false} CallsAccumulate<M, C>(w: Wire<M, C>, buffers: map<nat, bytes>, out: seq<MessengerEvent<M,
      C>>, closed: seq<nat>, es: seq<TransportEvent>)
    requires w.Safe()
    ensures var r := OnEvents(w, MState(buffers, [], []), es);
            OnEvents(w, MState(buffers, out, closed), es) == MState(r.buffers, out + r.out, closed + r.closed)
  {
    if es == [] {
      assert out + [] == out && closed + [] == closed;
    } else {
      var init := es[..|es| - 1];
      CallsAccumulate(w, buffers, out, closed, init);
      OnEventAccumulates(w, OnEvents(w, MState(buffers, [], []), init), out, closed, es[|es| - 1]);
    }
  }

  lemma OnEventAccumulates<M, C>(w: Wire<M, C>, st: MState<M, C>, out: seq<MessengerEvent<M, C>>, closed: seq<nat>,
      e: TransportEvent)
    requires w.Safe()
    ensures var r := OnEvent(w, st, e);
            OnEvent(w, MState(st.buffers, out + st.out, closed + st.closed), e)
            == MState(r.buffers, out + r.out, closed + r.closed)
  {
    hide ScanAll, Messages;
    var r := OnEvent(w, st, e);
    var r' := OnEvent(w, MState(st.buffers, out + st.out, closed + st.closed), e);
    assert r'.out == out + r.out;
    assert r'.closed == closed + r.closed;
  }
}
