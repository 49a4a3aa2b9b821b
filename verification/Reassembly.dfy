/**
 The receiving half of src/messenger/mod.rs: chunks of bytes in, whole messages out, with a residue kept
 per connection. `Scan` says what one pass over a buffer yields; `Messenger` is the stateful loop.
 */
module Reassembly {
  import opened Bytes
  import opened Framing
  import opened TransportTypes

  // ---------------------------------------------------------------------------
  // One pass over a byte string
  // ---------------------------------------------------------------------------

  /** Messages decoded, bytes left over, and the decode error that ended the pass, if any. After an error
      the buffer is thrown away, so no residue is left. */
  datatype Scan<+M, +C> = Scan(items: seq<(M, C)>, residue: bytes, failed: Option<Error>)

  function ScanAll<M, C>(w: Wire<M, C>, buf: bytes): Scan<M, C>
    requires w.Safe()
    decreases |buf|
  {
    if buf == [] then Scan([], [], None)
    else
      match DeserializeMessage(w, buf)
      case NeedMore => Scan([], buf, None)
      case Bad(e) => Scan([], [], Some(e))
      case Decoded(msg, ctx, size) =>
        var rest := ScanAll(w, buf[size..]);
        Scan([(msg, ctx)] + rest.items, rest.residue, rest.failed)
  }

  /** One more chunk for a connection whose reassembly so far is `st`; an error is final. */
  function Feed<M, C>(w: Wire<M, C>, st: Scan<M, C>, chunk: bytes): Scan<M, C>
    requires w.Safe()
  {
    if st.failed.Some? then st
    else
      var s := ScanAll(w, st.residue + chunk);
      Scan(st.items + s.items, s.residue, s.failed)
  }

  function FeedAll<M, C>(w: Wire<M, C>, chunks: seq<bytes>): Scan<M, C>
    requires w.Safe()
  {
    if chunks == [] then Scan([], [], None)
    else Feed(w, FeedAll(w, chunks[..|chunks| - 1]), chunks[|chunks| - 1])
  }

  /** What is kept can never be decoded as it stands. */
  lemma {:induction false} NoMessageLeftWaiting<M, C>(w: Wire<M, C>, buf: bytes)
    requires w.Safe()
    ensures var s := ScanAll(w, buf); s.residue == [] || DeserializeMessage(w, s.residue).NeedMore?
    decreases |buf|
  {
    if buf != [] && DeserializeMessage(w, buf).Decoded? {
      NoMessageLeftWaiting(w, buf[DeserializeMessage(w, buf).size..]);
    }
  }

  /** The scan of a buffer, one decoding at a time. */
  lemma ScanFirst<M, C>(w: Wire<M, C>, buf: bytes)
    requires w.Safe() && buf != []
    ensures var d := DeserializeMessage(w, buf);
            && (d.NeedMore? ==> ScanAll(w, buf) == Scan([], buf, None))
            && (d.Bad? ==> ScanAll(w, buf) == Scan([], [], Some(d.error)))
            && (d.Decoded? ==> ScanAll(w, buf) == Prepend([(d.msg, d.ctx)], ScanAll(w, buf[d.size..])))
  {
    hide DeserializeMessage;
  }

  function Prepend<M, C>(items: seq<(M, C)>, s: Scan<M, C>): Scan<M, C> {
    Scan(items + s.items, s.residue, s.failed)
  }

  lemma FeedPrepend<M, C>(w: Wire<M, C>, items: seq<(M, C)>, s: Scan<M, C>, chunk: bytes)
    requires w.Safe()
    ensures Feed(w, Prepend(items, s), chunk) == Prepend(items, Feed(w, s, chunk))
  {
    hide ScanAll;
    assert items + (s.items + ScanAll(w, s.residue + chunk).items)
           == items + s.items + ScanAll(w, s.residue + chunk).items;
  }

  lemma FeedFirst<M, C>(w: Wire<M, C>, buf: bytes, more: bytes, error: Error)
    requires w.Safe()
    ensures Feed(w, Scan([], buf, None), more) == ScanAll(w, buf + more)
    ensures Feed(w, Scan([], [], Some(error)), more) == Scan([], [], Some(error))
  {
    hide ScanAll;
    var s := ScanAll(w, buf + more);
    assert [] + s.items == s.items;
  }

  lemma DecisionIsFinal<M, C>(w: Wire<M, C>, buf: bytes, more: bytes)
    requires w.Safe() && !DeserializeMessage(w, buf).NeedMore?
    ensures DeserializeMessage(w, buf + more) == DeserializeMessage(w, buf)
  {
    hide DecodePayload, FromLE32;
    assert Complete(buf);
    hide DeserializeMessage, Complete;
    CompleteFrameIsFinal(w, buf, more);
  }

  lemma NothingScans<M, C>(w: Wire<M, C>)
    requires w.Safe()
    ensures ScanAll(w, []) == Scan([], [], None)
  {
  }

  /** Scanning can stop anywhere and resume with what was left. */
  lemma {:induction false} ScanResumes<M, C>(w: Wire<M, C>, buf: bytes, more: bytes)
    requires w.Safe()
    ensures ScanAll(w, buf + more) == Feed(w, ScanAll(w, buf), more)
    decreases |buf|
  {
    hide ScanAll, Prepend, Feed, DeserializeMessage, FromLE32;
    var d := DeserializeMessage(w, buf);
    FeedFirst(w, buf, more, if d.Bad? then d.error else MalformedData);
    if buf == [] {
      NothingScans(w);
    } else {
      ScanFirst(w, buf);
      if !d.NeedMore? {
        ScanFirst(w, buf + more);
        DecisionIsFinal(w, buf, more);
      }
      if d.Decoded? {
        assert (buf + more)[d.size..] == buf[d.size..] + more;
        ScanResumes(w, buf[d.size..], more);
        FeedPrepend(w, [(d.msg, d.ctx)], ScanAll(w, buf[d.size..]), more);
      }
    }
  }

  /** Chunk independence: however a stream is cut, reassembly yields the messages, the residue and the
      error of one pass over the whole stream. */
  lemma {:induction false} ChunkIndependence<M, C>(w: Wire<M, C>, chunks: seq<bytes>)
    requires w.Safe()
    ensures FeedAll(w, chunks) == ScanAll(w, Flatten(chunks))
  {
    if chunks != [] {
      var init, last := chunks[..|chunks| - 1], chunks[|chunks| - 1];
      ChunkIndependence(w, init);
      ScanResumes(w, Flatten(init), last);
    }
  }

  /** What is kept is nothing, the beginning of a frame, or a complete frame with its id cut short. */
  lemma ResidueIs<M, C>(w: Wire<M, C>, buf: bytes)
    requires w.Safe()
    ensures var residue := ScanAll(w, buf).residue;
            Complete(residue) <==> Truncated(w, residue)
  {
    NoMessageLeftWaiting(w, buf);
    NeedMoreIff(w, ScanAll(w, buf).residue);
    hide ScanAll, DeserializeMessage, Truncated, FromLE32;
    assert !Complete([]);
  }

  /** And in that last case nothing is ever emitted again: whatever arrives is only kept. */
  lemma StallIsForever<M, C>(w: Wire<M, C>, buf: bytes, more: bytes)
    requires w.Safe()
    requires ScanAll(w, buf).failed.None? && Truncated(w, ScanAll(w, buf).residue)
    ensures ScanAll(w, buf + more) == Scan(ScanAll(w, buf).items, ScanAll(w, buf).residue + more, None)
  {
    var s := ScanAll(w, buf);
    TruncatedStalls(w, s.residue, more);
    hide DeserializeMessage, FromLE32;
    ScanResumes(w, buf, more);
    ScanFirst(w, s.residue + more);
    hide ScanAll;
    assert s.items + [] == s.items;
  }

  // ---------------------------------------------------------------------------
  // Streams of frames
  // ---------------------------------------------------------------------------

  predicate Sendable<M, C>(w: Wire<M, C>, item: (M, C)) {
    w.Registered(item.0) && |Payload(w, item.0, item.1)| < U32_RANGE
  }

  predicate AllSendable<M, C>(w: Wire<M, C>, items: seq<(M, C)>) {
    forall i :: 0 <= i < |items| ==> Sendable(w, items[i])
  }

  function Frames<M, C>(w: Wire<M, C>, items: seq<(M, C)>): seq<bytes>
    requires AllSendable(w, items)
  {
    seq(|items|, i requires 0 <= i < |items| && Sendable(w, items[i]) => Frame(w, items[i].0, items[i].1))
  }

  lemma FramesCons<M, C>(w: Wire<M, C>, items: seq<(M, C)>)
    requires items != [] && AllSendable(w, items)
    ensures Flatten(Frames(w, items)) == Frame(w, items[0].0, items[0].1) + Flatten(Frames(w, items[1..]))
  {
    hide Frame, Flatten, Payload, LE32;
    var head := Frame(w, items[0].0, items[0].1);
    assert Frames(w, items) == [head] + Frames(w, items[1..]);
    FlattenCons(head, Frames(w, items[1..]));
  }

  lemma WholeFrameScans<M(!new), C(!new)>(w: Wire<M, C>, item: (M, C), rest: bytes)
    requires Lawful(w) && Sendable(w, item)
    ensures var s := ScanAll(w, rest);
            ScanAll(w, Frame(w, item.0, item.1) + rest) == Scan([item] + s.items, s.residue, s.failed)
  {
    var head := Frame(w, item.0, item.1);
    FramingRoundTrip(w, item.0, item.1, rest);
    assert (head + rest)[|head|..] == rest;
  }

  lemma PartialFrameWaits<M, C>(w: Wire<M, C>, item: (M, C), n: nat)
    requires w.Safe() && Sendable(w, item) && n < |Frame(w, item.0, item.1)|
    ensures ScanAll(w, Frame(w, item.0, item.1)[..n]) == Scan([], Frame(w, item.0, item.1)[..n], None)
  {
    StrictPrefixNeedsMore(w, item.0, item.1, n);
  }

  lemma SplitPrefix(arrived: bytes, head: bytes, tail: bytes)
    requires arrived <= head + tail
    ensures |arrived| < |head| ==> arrived == head[..|arrived|]
    ensures |head| <= |arrived| ==>
              var rest := arrived[|head|..];
              arrived == head + rest && rest <= tail && (arrived == head + tail ==> rest == tail)
  {
  }

  /** Whatever prefix of a stream of frames has arrived decodes, without error, to a prefix of the
      messages sent; the whole stream decodes to all of them with nothing left over. */
  lemma {:induction false} PrefixDecodesToPrefix<M(!new), C(!new)>(w: Wire<M, C>, items: seq<(M, C)>, arrived: bytes)
    requires Lawful(w) && AllSendable(w, items)
    requires arrived <= Flatten(Frames(w, items))
    ensures ScanAll(w, arrived).failed.None? && ScanAll(w, arrived).items <= items
    ensures arrived == Flatten(Frames(w, items)) ==> ScanAll(w, arrived) == Scan(items, [], None)
    decreases |items|
  {
    if items == [] {
      assert arrived == [];
    } else {
      PrefixStep(w, items, arrived);
      var head := Frame(w, items[0].0, items[0].1);
      if |head| <= |arrived| {
        var rest := arrived[|head|..];
        PrefixDecodesToPrefix(w, items[1..], rest);
        ConsPrefix(items, ScanAll(w, rest).items);
      }
    }
  }

  lemma ConsPrefix<T>(items: seq<T>, some: seq<T>)
    requires items != [] && some <= items[1..]
    ensures [items[0]] + some <= items
    ensures some == items[1..] ==> [items[0]] + some == items
  {
  }

  /** The first frame of the stream either is still arriving or decodes and leaves the rest. */
  lemma PrefixStep<M(!new), C(!new)>(w: Wire<M, C>, items: seq<(M, C)>, arrived: bytes)
    requires Lawful(w) && AllSendable(w, items) && items != []
    requires arrived <= Flatten(Frames(w, items))
    ensures AllSendable(w, items[1..])
    ensures var (head, tail) := (Frame(w, items[0].0, items[0].1), Flatten(Frames(w, items[1..])));
            if |arrived| < |head| then
              arrived != Flatten(Frames(w, items)) && ScanAll(w, arrived) == Scan([], arrived, None)
            else
              var rest := arrived[|head|..];
              var s := ScanAll(w, rest);
              && rest <= tail && (arrived == Flatten(Frames(w, items)) ==> rest == tail)
              && ScanAll(w, arrived) == Scan([items[0]] + s.items, s.residue, s.failed)
  {
    hide Frame, Flatten, Frames, ScanAll, Payload;
    var (head, tail) := (Frame(w, items[0].0, items[0].1), Flatten(Frames(w, items[1..])));
    FramesCons(w, items);
    SplitPrefix(arrived, head, tail);
    if |arrived| < |head| {
      PartialFrameWaits(w, items[0], |arrived|);
    } else {
      WholeFrameScans(w, items[0], arrived[|head|..]);
    }
  }

  /** A frame that is rejected ends the stream: the messages before it are dispatched, with its own error after them,
      and nothing that follows it is looked at or kept. */
  lemma ErrorEndsTheStream<M(!new), C(!new)>(w: Wire<M, C>, items: seq<(M, C)>, wrong: bytes, rest: bytes)
    requires Lawful(w) && AllSendable(w, items) && DeserializeMessage(w, wrong).Bad?
    ensures ScanAll(w, Flatten(Frames(w, items)) + (wrong + rest))
            == Scan(items, [], Some(DeserializeMessage(w, wrong).error))
  {
    hide ScanAll, DeserializeMessage, Frames, Flatten, AllSendable;
    var frames := Flatten(Frames(w, items));
    PrefixDecodesToPrefix(w, items, frames);
    ScanResumes(w, frames, wrong + rest);
    DecisionIsFinal(w, wrong, rest);
    EmptyNeedsMore(w);
    ScanFirst(w, wrong + rest);
    assert [] + (wrong + rest) == wrong + rest && items + [] == items;
  }

  lemma EmptyNeedsMore<M, C>(w: Wire<M, C>)
    requires w.Safe()
    ensures DeserializeMessage(w, []).NeedMore?
  {
  }

  // ---------------------------------------------------------------------------
  // The messenger: reassembly of all connections over an event stream
  // ---------------------------------------------------------------------------

  datatype MessengerEvent<+M, +C> =
    | MInactive
    | MConnected(id: nat)
    | MConnectionFailed(id: nat)
    | MDisconnected(id: nat)
    | MMessage(id: nat, msg: M, ctx: C)

  /** Receive buffers, events dispatched so far, and connections closed because of a decode error. */
  datatype MState<+M, +C> = MState(buffers: map<nat, bytes>, out: seq<MessengerEvent<M, C>>, closed: seq<nat>)

  function Buffered(buffers: map<nat, bytes>, id: nat): bytes {
    if id in buffers then buffers[id] else []
  }

  function Messages<M, C>(id: nat, items: seq<(M, C)>): seq<MessengerEvent<M, C>> {
    seq(|items|, i requires 0 <= i < |items| => MMessage(id, items[i].0, items[i].1))
  }

  function OnData<M, C>(w: Wire<M, C>, st: MState<M, C>, id: nat, data: bytes): MState<M, C>
    requires w.Safe()
  {
    var s := ScanAll(w, Buffered(st.buffers, id) + data);
    var out := st.out + Messages(id, s.items);
    if s.failed.Some? then MState(st.buffers - {id}, out, st.closed + [id])
    else MState(st.buffers[id := s.residue], out, st.closed)
  }

  function OnEvent<M, C>(w: Wire<M, C>, st: MState<M, C>, e: TransportEvent): MState<M, C>
    requires w.Safe()
  {
    match e
    case Inactive => MState(map[], st.out + [MInactive], st.closed)
    case Connected(id) => st.(out := st.out + [MConnected(id)])
    case ConnectionFailed(id) => MState(st.buffers - {id}, st.out + [MConnectionFailed(id)], st.closed)
    case Disconnected(id) => MState(st.buffers - {id}, st.out + [MDisconnected(id)], st.closed)
    case Data(id, data) => OnData(w, st, id, data)
  }

  function OnEvents<M, C>(w: Wire<M, C>, st: MState<M, C>, es: seq<TransportEvent>): MState<M, C>
    requires w.Safe()
  {
    if es == [] then st else OnEvent(w, OnEvents(w, st, es[..|es| - 1]), es[|es| - 1])
  }

  /** The part of a batch the messenger looks at: an Inactive event breaks out of the loop. */
  function UpToInactive(es: seq<TransportEvent>): seq<TransportEvent> {
    if es == [] then [] else if es[0].Inactive? then [es[0]] else [es[0]] + UpToInactive(es[1..])
  }

  /** The messages of one connection, out of everything dispatched. */
  function MessagesOf<M, C>(out: seq<MessengerEvent<M, C>>, id: nat): seq<(M, C)> {
    if out == [] then []
    else
      var last := out[|out| - 1];
      MessagesOf(out[..|out| - 1], id) + (if last.MMessage? && last.id == id then [(last.msg, last.ctx)] else [])
  }

  lemma {:induction false} MessagesOfConcat<M, C>(a: seq<MessengerEvent<M, C>>, b: seq<MessengerEvent<M, C>>, id: nat)
    ensures MessagesOf(a + b, id) == MessagesOf(a, id) + MessagesOf(b, id)
  {
    if b == [] {
      assert a + b == a;
    } else {
      assert (a + b)[..|a + b| - 1] == a + b[..|b| - 1];
      MessagesOfConcat(a, b[..|b| - 1], id);
    }
  }

  lemma {:induction false} MessagesOfMessages<M, C>(id: nat, items: seq<(M, C)>, other: nat)
    ensures MessagesOf(Messages(id, items), other) == if id == other then items else []
  {
    if items != [] {
      var init := items[..|items| - 1];
      assert Messages(id, items)[..|items| - 1] == Messages(id, init);
      MessagesOfMessages(id, init, other);
      assert items == init + [items[|items| - 1]];
    }
  }

  lemma MessagesOfNotice<M, C>(out: seq<MessengerEvent<M, C>>, e: MessengerEvent<M, C>, id: nat)
    requires !e.MMessage?
    ensures MessagesOf(out + [e], id) == MessagesOf(out, id)
  {
    assert (out + [e])[..|out|] == out;
  }

  /** The messenger's view of one connection agrees with one pass over the bytes received on it, residue
      included while undisturbed; after a decode error, the messages before the error were dispatched and the
      connection was closed. */
  ghost predicate Tracks<M, C>(w: Wire<M, C>, st: MState<M, C>, got: bytes, id: nat, undisturbed: bool)
    requires w.Safe()
  {
    var s := ScanAll(w, got);
    && (s.failed.None? ==> MessagesOf(st.out, id) == s.items && id !in st.closed)
    && (s.failed.None? && undisturbed ==> Buffered(st.buffers, id) == s.residue)
    && (s.failed.Some? ==> s.items <= MessagesOf(st.out, id) && id in st.closed)
  }

  lemma OwnDataIsTracked<M, C>(w: Wire<M, C>, st: MState<M, C>, got: bytes, id: nat, data: bytes)
    requires w.Safe() && Tracks(w, st, got, id, true)
    ensures Tracks(w, OnData(w, st, id, data), got + data, id, true)
  {
    hide ScanAll, MessagesOf, Messages;
    var s := ScanAll(w, Buffered(st.buffers, id) + data);
    MessagesOfConcat(st.out, Messages(id, s.items), id);
    MessagesOfMessages(id, s.items, id);
    ScanResumes(w, got, data);
  }

  lemma OtherDataDoesNotDisturb<M, C>(w: Wire<M, C>, st: MState<M, C>, got: bytes, id: nat, other: nat, data: bytes,
      undisturbed: bool)
    requires w.Safe() && Tracks(w, st, got, id, undisturbed) && other != id
    ensures Tracks(w, OnData(w, st, other, data), got, id, undisturbed)
  {
    hide ScanAll, MessagesOf, Messages;
    var s := ScanAll(w, Buffered(st.buffers, other) + data);
    MessagesOfConcat(st.out, Messages(other, s.items), id);
    MessagesOfMessages(other, s.items, id);
  }

  /** A notice that leaves the connection's buffer alone, or clears it. */
  lemma NoticeIsTracked<M, C>(w: Wire<M, C>, st: MState<M, C>, got: bytes, id: nat, undisturbed: bool,
                              notice: MessengerEvent<M, C>, buffers: map<nat, bytes>)
    requires w.Safe() && Tracks(w, st, got, id, undisturbed) && !notice.MMessage?
    ensures var st' := MState(buffers, st.out + [notice], st.closed);
            && (Buffered(buffers, id) == Buffered(st.buffers, id) ==> Tracks(w, st', got, id, undisturbed))
            && (Buffered(buffers, id) == [] ==> Tracks(w, st', got, id, got == []))
  {
    EmptyScan(w, got);
    MessagesOfNotice(st.out, notice, id);
    hide ScanAll, MessagesOf, Buffered;
  }

  lemma OthersAreNotDisturbed<M, C>(w: Wire<M, C>, st: MState<M, C>, got: bytes, id: nat, e: TransportEvent,
                                    undisturbed: bool)
    requires w.Safe() && Tracks(w, st, got, id, undisturbed)
    requires About(e, id) ==> !e.Data?
    ensures Tracks(w, OnEvent(w, st, e), got, id, if Resets(e, id) then got == [] else undisturbed)
  {
    hide ScanAll, MessagesOf, Messages, Tracks, OnData;
    match e {
      case Inactive => NoticeIsTracked(w, st, got, id, undisturbed, MInactive, map[]);
      case Connected(i) => NoticeIsTracked(w, st, got, id, undisturbed, MConnected(i), st.buffers);
      case ConnectionFailed(i) =>
        NoticeIsTracked(w, st, got, id, undisturbed, MConnectionFailed(i), st.buffers - {i});
      case Disconnected(i) => NoticeIsTracked(w, st, got, id, undisturbed, MDisconnected(i), st.buffers - {i});
      case Data(i, data) => OtherDataDoesNotDisturb(w, st, got, id, i, data, undisturbed);
    }
  }

  lemma EventIsTracked<M, C>(w: Wire<M, C>, st: MState<M, C>, es: seq<TransportEvent>, e: TransportEvent, id: nat)
    requires w.Safe() && Tracks(w, st, Received(EventsOf(es, id)), id, Undisturbed(es, id))
    requires Orderly(es + [e], id)
    ensures Tracks(w, OnEvent(w, st, e), Received(EventsOf(es + [e], id)), id, Undisturbed(es + [e], id))
  {
    hide ScanAll, EventsOf, Received, MessagesOf, Tracks, Undisturbed, Orderly;
    var got := Received(EventsOf(es, id));
    EventsOfSnoc(es, e, id);
    OrderSnoc(es, e, id);
    if About(e, id) {
      ReceivedSnoc(EventsOf(es, id), e);
    }
    if About(e, id) && e.Data? {
      OwnDataIsTracked(w, st, got, id, e.data);
    } else {
      OthersAreNotDisturbed(w, st, got, id, e, Undisturbed(es, id));
      assert EventsOf(es, id) + [] == EventsOf(es, id) && got + [] == got;
    }
  }

  /** Connections do not disturb each other: within any interleaving of events in which the data of one
      connection is not interrupted by its own end, the messages dispatched for it and its residue are those
      of one pass over the bytes received on it. */
  lemma {:induction false} ConnectionsAreIndependent<M, C>(w: Wire<M, C>, es: seq<TransportEvent>, id: nat)
    requires w.Safe() && Orderly(es, id)
    ensures Tracks(w, OnEvents(w, MState(map[], [], []), es), Received(EventsOf(es, id)), id, Undisturbed(es, id))
  {
    if es != [] {
      var init, e := es[..|es| - 1], es[|es| - 1];
      assert es == init + [e];
      ConnectionsAreIndependent(w, init, id);
      EventIsTracked(w, OnEvents(w, MState(map[], [], []), init), init, e, id);
    }
  }

  function OnBatches<M, C>(w: Wire<M, C>, st: MState<M, C>, batches: seq<seq<TransportEvent>>): MState<M, C>
    requires w.Safe()
  {
    if batches == [] then st
    else OnEvents(w, OnBatches(w, st, batches[..|batches| - 1]), UpToInactive(batches[|batches| - 1]))
  }

  // ---------------------------------------------------------------------------
  // Connection events are passed on
  // ---------------------------------------------------------------------------

  /** What the application is told of an event that carries no data. */
  function Notice<M, C>(e: TransportEvent): MessengerEvent<M, C>
    requires !e.Data?
  {
    match e
    case Inactive => MInactive
    case Connected(id) => MConnected(id)
    case ConnectionFailed(id) => MConnectionFailed(id)
    case Disconnected(id) => MDisconnected(id)
  }

  /** The notices of a stream, in order. */
  function NoticesOf<M, C>(es: seq<TransportEvent>): seq<MessengerEvent<M, C>> {
    if es == [] then []
    else NoticesOf(es[..|es| - 1]) + (if es[|es| - 1].Data? then [] else [Notice(es[|es| - 1])])
  }

  /** Everything dispatched that is not a message, in order. */
  function NonMessages<M, C>(out: seq<MessengerEvent<M, C>>): seq<MessengerEvent<M, C>> {
    if out == [] then []
    else NonMessages(out[..|out| - 1]) + (if out[|out| - 1].MMessage? then [] else [out[|out| - 1]])
  }

  lemma {:induction false} NonMessagesConcat<M, C>(a: seq<MessengerEvent<M, C>>, b: seq<MessengerEvent<M, C>>)
    ensures NonMessages(a + b) == NonMessages(a) + NonMessages(b)
  {
    if b == [] {
      assert a + b == a;
    } else {
      assert (a + b)[..|a + b| - 1] == a + b[..|b| - 1];
      NonMessagesConcat(a, b[..|b| - 1]);
    }
  }

  lemma {:induction false} MessagesAreNoNotices<M, C>(id: nat, items: seq<(M, C)>)
    ensures NonMessages(Messages(id, items)) == []
  {
    if items != [] {
      var init := items[..|items| - 1];
      assert Messages(id, items)[..|items| - 1] == Messages(id, init);
      MessagesAreNoNotices(id, init);
    }
  }

  lemma NoticeIsTold<M, C>(w: Wire<M, C>, st: MState<M, C>, e: TransportEvent)
    requires w.Safe() && !e.Data?
    ensures OnEvent(w, st, e).out == st.out + [Notice(e)]
  {
    hide OnData;
  }

  lemma DataTellsMessages<M, C>(w: Wire<M, C>, st: MState<M, C>, id: nat, data: bytes)
    requires w.Safe()
    ensures OnEvent(w, st, Data(id, data)).out
            == st.out + Messages(id, ScanAll(w, Buffered(st.buffers, id) + data).items)
  {
    hide ScanAll, Messages, Buffered;
  }

  lemma NonMessagesSnoc<M, C>(out: seq<MessengerEvent<M, C>>, e: MessengerEvent<M, C>)
    requires !e.MMessage?
    ensures NonMessages(out + [e]) == NonMessages(out) + [e]
  {
    assert (out + [e])[..|out|] == out;
  }

  lemma EventPassedOn<M, C>(w: Wire<M, C>, st: MState<M, C>, e: TransportEvent)
    requires w.Safe()
    ensures st.out <= OnEvent(w, st, e).out
    ensures NonMessages(OnEvent(w, st, e).out) == NonMessages(st.out) + (if e.Data? then [] else [Notice(e)])
  {
    if e.Data? {
      var items := ScanAll(w, Buffered(st.buffers, e.id) + e.data).items;
      DataTellsMessages(w, st, e.id, e.data);
      NonMessagesConcat(st.out, Messages(e.id, items));
      MessagesAreNoNotices(e.id, items);
    } else {
      NoticeIsTold(w, st, e);
      NonMessagesSnoc(st.out, Notice(e));
    }
    hide OnEvent, NonMessages, Notice, ScanAll, Messages, Buffered;
  }

  /** Whatever was dispatched before: the events dispatched that are not messages are, kind by kind and in order,
      the events of the stream that carry no data. */
  lemma {:induction false} NoticesArePassedOn<M, C>(w: Wire<M, C>, st: MState<M, C>, es: seq<TransportEvent>)
    requires w.Safe()
    ensures st.out <= OnEvents(w, st, es).out
    ensures NonMessages(OnEvents(w, st, es).out) == NonMessages(st.out) + NoticesOf(es)
  {
    hide OnEvent, NonMessages, Notice;
    if es != [] {
      var (init, e) := (es[..|es| - 1], es[|es| - 1]);
      NoticesArePassedOn(w, st, init);
      EventPassedOn(w, OnEvents(w, st, init), e);
      var notices: seq<MessengerEvent<M, C>> := if e.Data? then [] else [Notice(e)];
      assert NonMessages(st.out) + NoticesOf(init) + notices == NonMessages(st.out) + (NoticesOf(init) + notices);
    } else {
      assert NonMessages(st.out) + [] == NonMessages(st.out);
    }
  }

  /** A notice stands where its event stood: after everything dispatched for the events before it. */
  lemma {:induction false} NoticeStandsInPlace<M, C>(w: Wire<M, C>, st: MState<M, C>, es: seq<TransportEvent>, k: nat)
    requires w.Safe() && k < |es| && !es[k].Data?
    ensures OnEvents(w, st, es[..k]).out + [Notice(es[k])] <= OnEvents(w, st, es).out
    decreases |es|
  {
    hide OnEvents, OnEvent, Notice, NonMessages;
    var (init, e) := (es[..|es| - 1], es[|es| - 1]);
    OnEventsSnoc(w, st, es);
    if k < |es| - 1 {
      NoticeStandsInPlace(w, st, init, k);
      assert init[..k] == es[..k];
      EventPassedOn(w, OnEvents(w, st, init), e);
    } else {
      NoticeIsTold(w, OnEvents(w, st, init), e);
    }
  }

  /** Each notice of an id, in any stream in which its data is orderly, stands after exactly the messages that one
      pass over the bytes received before it decodes. */
  lemma NoticeAfterItsMessages<M, C>(w: Wire<M, C>, es: seq<TransportEvent>, k: nat, id: nat)
    requires w.Safe() && k < |es| && !es[k].Data? && Orderly(es[..k], id)
    ensures var got := ScanAll(w, Received(EventsOf(es[..k], id)));
            var before := OnEvents(w, MState(map[], [], []), es[..k]).out;
            && before + [Notice(es[k])] <= OnEvents(w, MState(map[], [], []), es).out
            && (got.failed.None? ==> MessagesOf(before, id) == got.items)
            && got.items <= MessagesOf(before, id)
  {
    hide ScanAll, EventsOf, Received, MessagesOf, OnEvents, Orderly, Undisturbed, Notice;
    NoticeStandsInPlace(w, MState(map[], [], []), es, k);
    ConnectionsAreIndependent(w, es[..k], id);
  }

  /** The part of a batch that is looked at: all of it, or up to the first Inactive. */
  lemma {:induction false} UpToInactiveIs(es: seq<TransportEvent>)
    ensures var r := UpToInactive(es);
            && r <= es && (forall i :: 0 <= i < |r| - 1 ==> !r[i].Inactive?)
            && (r != es ==> r != [] && r[|r| - 1].Inactive?)
  {
    if es != [] && !es[0].Inactive? {
      UpToInactiveIs(es[1..]);
      assert es == [es[0]] + es[1..];
    }
  }

  /** All that is looked at of consecutive batches. */
  function Seen(batches: seq<seq<TransportEvent>>): seq<TransportEvent> {
    if batches == [] then [] else Seen(batches[..|batches| - 1]) + UpToInactive(batches[|batches| - 1])
  }

  lemma NothingTold<M, C>()
    ensures NonMessages<M, C>([]) == NoticesOf<M, C>([])
  {
  }

  lemma {:induction false} NoticesOfConcat<M, C>(a: seq<TransportEvent>, b: seq<TransportEvent>)
    ensures NoticesOf<M, C>(a + b) == NoticesOf<M, C>(a) + NoticesOf<M, C>(b)
  {
    if b == [] {
      assert a + b == a;
    } else {
      assert (a + b)[..|a + b| - 1] == a + b[..|b| - 1];
      NoticesOfConcat<M, C>(a, b[..|b| - 1]);
    }
  }

  lemma PrependSnoc<M, C>(items: seq<(M, C)>, s: Scan<M, C>)
    requires items != []
    ensures Prepend(items, s) == Prepend(items[..|items| - 1], Prepend([items[|items| - 1]], s))
  {
    assert items + s.items == items[..|items| - 1] + ([items[|items| - 1]] + s.items);
  }

  lemma MessagesSnoc<M, C>(id: nat, items: seq<(M, C)>)
    ensures items == [] ==> Messages(id, items) == []
    ensures items != [] ==> var last := items[|items| - 1];
              Messages(id, items) == Messages(id, items[..|items| - 1]) + [MMessage(id, last.0, last.1)]
  {
  }

  lemma RemoveInserted(m: map<nat, bytes>, id: nat, b: bytes)
    ensures m[id := b] - {id} == m - {id}
  {
    assert (m[id := b] - {id}).Keys == (m - {id}).Keys;
  }

  lemma OnEventsSnoc<M, C>(w: Wire<M, C>, st: MState<M, C>, es: seq<TransportEvent>)
    requires w.Safe()
    ensures es == [] ==> OnEvents(w, st, es) == st
    ensures es != [] ==> OnEvents(w, st, es) == OnEvent(w, OnEvents(w, st, es[..|es| - 1]), es[|es| - 1])
  {
  }

  lemma UpToInactiveAt(batch: seq<TransportEvent>, i: nat)
    requires i <= |batch|
    ensures i == |batch| ==> UpToInactive(batch[i..]) == []
    ensures i < |batch| ==>
              batch[..i] + UpToInactive(batch[i..])
              == batch[..i + 1] + (if batch[i].Inactive? then [] else UpToInactive(batch[i + 1..]))
  {
    if i < |batch| {
      assert batch[i..][1..] == batch[i + 1..];
    }
  }

  lemma EmptyScan<M, C>(w: Wire<M, C>, buf: bytes)
    requires w.Safe()
    ensures buf == [] ==> ScanAll(w, buf) == Scan([], [], None)
  {
  }

  lemma ScanStep<M, C>(w: Wire<M, C>, buf: bytes, pos: nat)
    requires w.Safe() && pos < |buf|
    ensures match DeserializeMessage(w, buf[pos..])
            case NeedMore => ScanAll(w, buf[pos..]) == Scan([], buf[pos..], None)
            case Bad(e) => ScanAll(w, buf[pos..]) == Scan([], [], Some(e))
            case Decoded(msg, ctx, size) =>
              && 0 < size && pos + size <= |buf|
              && ScanAll(w, buf[pos..]) == Prepend([(msg, ctx)], ScanAll(w, buf[pos + size..]))
  {
    hide DecodePayload, FromLE32;
    var d := DeserializeMessage(w, buf[pos..]);
    if d.Decoded? {
      assert buf[pos..][d.size..] == buf[pos + d.size..];
    }
  }

  class Messenger<!M(!new), !C(!new)> {
    const wire: Wire<M, C>
    var recvBuffers: map<nat, bytes>

    ghost predicate Valid() {
      wire.Safe()
    }

    ghost function State(out: seq<MessengerEvent<M, C>>, closed: seq<nat>): MState<M, C>
      reads this
    {
      MState(recvBuffers, out, closed)
    }

    constructor (wire: Wire<M, C>)
      requires wire.Safe()
      ensures Valid() && this.wire == wire && recvBuffers == map[]
    {
      this.wire := wire;
      recvBuffers := map[];
    }

    /** The decode loop: every complete message from `recvPos` on, until the rest is too short or wrong. */
    static method DecodeBuffer(wire: Wire<M, C>, id: nat, recvBuf: bytes, out0: seq<MessengerEvent<M, C>>)
      returns (out: seq<MessengerEvent<M, C>>, recvPos: nat, hadError: bool)
      requires wire.Safe()
      ensures recvPos <= |recvBuf|
      ensures var s := ScanAll(wire, recvBuf);
              && out == out0 + Messages(id, s.items)
              && hadError == s.failed.Some?
              && (!hadError ==> recvBuf[recvPos..] == s.residue)
    {
      hide DeserializeMessage, ScanAll, Messages;
      out, recvPos, hadError := out0, 0, false;
      var waiting := false;
      ghost var items: seq<(M, C)> := [];
      assert recvBuf[recvPos..] == recvBuf;
      MessagesSnoc(id, items);
      while recvPos < |recvBuf| && !hadError && !waiting
        invariant recvPos <= |recvBuf|
        invariant out == out0 + Messages(id, items)
        invariant ScanAll(wire, recvBuf) == Prepend(items, ScanAll(wire, recvBuf[recvPos..]))
        invariant hadError ==> ScanAll(wire, recvBuf[recvPos..]).items == []
                               && ScanAll(wire, recvBuf[recvPos..]).failed.Some?
        invariant waiting ==> ScanAll(wire, recvBuf[recvPos..]) == Scan([], recvBuf[recvPos..], None)
        decreases |recvBuf| - recvPos, if hadError || waiting then 0 else 1
      {
        ScanStep(wire, recvBuf, recvPos);
        match DeserializeMessage(wire, recvBuf[recvPos..]) {
          case Decoded(msg, ctx, bytesRead) =>
            out := out + [MMessage(id, msg, ctx)];
            items := items + [(msg, ctx)];
            MessagesSnoc(id, items);
            PrependSnoc(items, ScanAll(wire, recvBuf[recvPos + bytesRead..]));
            recvPos := recvPos + bytesRead;
          case NeedMore =>
            waiting := true;
          case Bad(_) =>
            hadError := true;
        }
      }
      EmptyScan(wire, recvBuf[recvPos..]);
      assert items + [] == items;
    }

    /** The Data arm of `fetch_events`: extend the buffer, decode, drain what was consumed, and on a decode
        error drop the buffer and close the connection. */
    method HandleData(id: nat, data: bytes, out0: seq<MessengerEvent<M, C>>, closed0: seq<nat>)
      returns (out: seq<MessengerEvent<M, C>>, closed: seq<nat>)
      requires Valid()
      modifies this
      ensures State(out, closed) == OnData(wire, old(State(out0, closed0)), id, data)
    {
      hide ScanAll, Messages;
      closed := closed0;
      var recvBuf := if id in recvBuffers then recvBuffers[id] else [];
      if recvBuf == [] {
        recvBuf := data;
      } else {
        recvBuf := recvBuf + data;
      }
      assert recvBuf == Buffered(recvBuffers, id) + data;
      var recvPos, hadError;
      out, recvPos, hadError := DecodeBuffer(wire, id, recvBuf, out0);
      recvBuffers := recvBuffers[id := recvBuf[recvPos..]];
      if hadError {
        RemoveInserted(old(recvBuffers), id, recvBuf[recvPos..]);
        recvBuffers := recvBuffers - {id};
        closed := closed + [id];
      }
    }

    /** One arm of the event loop, each with its effect on the receive buffers. */
    method HandleEvent(e: TransportEvent, out0: seq<MessengerEvent<M, C>>, closed0: seq<nat>)
      returns (out: seq<MessengerEvent<M, C>>, closed: seq<nat>)
      requires Valid()
      modifies this
      ensures State(out, closed) == OnEvent(wire, old(State(out0, closed0)), e)
      ensures NonMessages(out) == NonMessages(out0) + (if e.Data? then [] else [Notice(e)])
    {
      EventPassedOn(wire, State(out0, closed0), e);
      hide OnData, NonMessages;
      out, closed := out0, closed0;
      match e {
        case Inactive =>
          recvBuffers := map[];
          out := out + [MInactive];
        case Connected(id) =>
          out := out + [MConnected(id)];
        case ConnectionFailed(id) =>
          recvBuffers := recvBuffers - {id};
          out := out + [MConnectionFailed(id)];
        case Disconnected(id) =>
          recvBuffers := recvBuffers - {id};
          out := out + [MDisconnected(id)];
        case Data(id, data) =>
          out, closed := HandleData(id, data, out, closed);
      }
    }

    /** One batch of transport events, up to an Inactive event. */
    method HandleBatch(batch: seq<TransportEvent>, out0: seq<MessengerEvent<M, C>>, closed0: seq<nat>)
      returns (out: seq<MessengerEvent<M, C>>, closed: seq<nat>)
      requires Valid()
      modifies this
      ensures State(out, closed) == OnEvents(wire, old(State(out0, closed0)), UpToInactive(batch))
      ensures NonMessages(out) == NonMessages(out0) + NoticesOf(UpToInactive(batch))
    {
      hide OnEvents, UpToInactive, OnEvent, NonMessages, NoticesOf, Notice;
      ghost var before := State(out0, closed0);
      out, closed := out0, closed0;
      var i, inactive := 0, false;
      OnEventsSnoc(wire, State(out0, closed0), batch[..i]);
      assert batch[i..] == batch;
      while i < |batch| && !inactive
        invariant i <= |batch|
        invariant UpToInactive(batch) == batch[..i] + (if inactive then [] else UpToInactive(batch[i..]))
        invariant State(out, closed) == OnEvents(wire, old(State(out0, closed0)), batch[..i])
        decreases |batch| - i, if inactive then 0 else 1
      {
        UpToInactiveAt(batch, i);
        OnEventsSnoc(wire, old(State(out0, closed0)), batch[..i + 1]);
        assert batch[..i + 1][..i] == batch[..i];
        out, closed := HandleEvent(batch[i], out, closed);
        inactive := batch[i].Inactive?;
        i := i + 1;
      }
      UpToInactiveAt(batch, i);
      assert UpToInactive(batch) == batch[..i] + [] == batch[..i];
      NoticesArePassedOn(wire, before, UpToInactive(batch));
    }

    /** `Messenger::fetch_events`: batches are taken from the transport until something can be dispatched.
        The transport's answers are the parameter; `used` of them were consumed. */
    method FetchEvents(batches: seq<seq<TransportEvent>>)
      returns (out: seq<MessengerEvent<M, C>>, closed: seq<nat>, used: nat)
      requires Valid()
      modifies this
      ensures used <= |batches|
      ensures State(out, closed) == OnBatches(wire, old(State([], [])), batches[..used])
      ensures NonMessages(out) == NoticesOf(Seen(batches[..used]))
      ensures out != [] || used == |batches|
      ensures forall k | 0 <= k < used :: OnBatches(wire, old(State([], [])), batches[..k]).out == []
    {
      hide OnEvents, UpToInactive, NonMessages, NoticesOf;
      out, closed, used := [], [], 0;
      NothingTold<M, C>();
      while out == [] && used < |batches|
        invariant used <= |batches|
        invariant State(out, closed) == OnBatches(wire, old(State([], [])), batches[..used])
        invariant NonMessages(out) == NoticesOf(Seen(batches[..used]))
        invariant forall k | 0 <= k < used :: OnBatches(wire, old(State([], [])), batches[..k]).out == []
        decreases |batches| - used
      {
        out, closed := HandleBatch(batches[used], out, closed);
        used := used + 1;
        assert batches[..used][..used - 1] == batches[..used - 1];
        NoticesOfConcat<M, C>(Seen(batches[..used - 1]), UpToInactive(batches[used - 1]));
      }
    }
  }
}
