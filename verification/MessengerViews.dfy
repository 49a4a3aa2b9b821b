/** What the messenger makes of any stream of events, seen from one connection id: its buffer, its messages and its
    decode errors follow from its own data and ends alone. */
module MessengerViews {
  import opened Bytes
  import opened Framing
  import opened TransportTypes
  import opened Reassembly

  /** The bytes kept for an id, the messages decoded on it and how often decoding has failed. */
  datatype View<+M, +C> = View(residue: bytes, items: seq<(M, C)>, errors: nat)

  function Extend<M, C>(w: Wire<M, C>, v: View<M, C>, data: bytes): View<M, C>
    requires w.Safe()
  {
    var s := ScanAll(w, v.residue + data);
    View(s.residue, v.items + s.items, v.errors + if s.failed.Some? then 1 else 0)
  }

  /** One id's reading of a stream: its data extends it, its end and Inactive clear the bytes kept, and nothing else
      matters. */
  function ViewOf<M, C>(w: Wire<M, C>, es: seq<TransportEvent>, id: nat): View<M, C>
    requires w.Safe()
  {
    if es == [] then View([], [], 0)
    else
      var (v, e) := (ViewOf(w, es[..|es| - 1], id), es[|es| - 1]);
      if Resets(e, id) then v.(residue := [])
      else if About(e, id) && e.Data? then Extend(w, v, e.data)
      else v
  }

  function Count(ids: seq<nat>, id: nat): nat {
    multiset(ids)[id]
  }

  /** The state agrees with the view of every id. */
  ghost predicate Agrees<M, C>(st: MState<M, C>, v: View<M, C>, id: nat) {
    && Buffered(st.buffers, id) == v.residue
    && MessagesOf(st.out, id) == v.items
    && Count(st.closed, id) == v.errors
  }

  lemma {:induction false} FailureLeavesNothing<M, C>(w: Wire<M, C>, buf: bytes)
    requires w.Safe()
    ensures ScanAll(w, buf).failed.Some? ==> ScanAll(w, buf).residue == []
    decreases |buf|
  {
    if buf != [] {
      ScanFirst(w, buf);
      hide ScanAll;
      if DeserializeMessage(w, buf).Decoded? {
        FailureLeavesNothing(w, buf[DeserializeMessage(w, buf).size..]);
      }
    }
  }

  lemma DataAgrees<M, C>(w: Wire<M, C>, st: MState<M, C>, v: View<M, C>, id: nat, other: nat, data: bytes)
    requires w.Safe() && Agrees(st, v, id)
    ensures Agrees(OnData(w, st, other, data), if other == id then Extend(w, v, data) else v, id)
  {
    var s := ScanAll(w, Buffered(st.buffers, other) + data);
    FailureLeavesNothing(w, Buffered(st.buffers, other) + data);
    hide ScanAll, MessagesOf, Messages;
    MessagesOfConcat(st.out, Messages(other, s.items), id);
    MessagesOfMessages(other, s.items, id);
    assert MessagesOf(st.out, id) + [] == MessagesOf(st.out, id);
  }

  lemma NoticeAgrees<M, C>(w: Wire<M, C>, st: MState<M, C>, v: View<M, C>, id: nat, e: TransportEvent)
    requires w.Safe() && Agrees(st, v, id) && !e.Data?
    ensures Agrees(OnEvent(w, st, e), if Resets(e, id) then v.(residue := []) else v, id)
  {
    hide MessagesOf;
    MessagesOfNotice(st.out, Notice(e), id);
  }

  /** For every stream of events, however the data and the ends of connections interleave, and across all lives of an
      id: what is buffered for the id, the messages dispatched for it and the decode errors it was closed for are
      those of its own view of the stream. */
  lemma {:induction false} EveryIdHasItsView<M, C>(w: Wire<M, C>, es: seq<TransportEvent>, id: nat)
    requires w.Safe()
    ensures Agrees(OnEvents(w, MState(map[], [], []), es), ViewOf(w, es, id), id)
  {
    if es != [] {
      var (init, e) := (es[..|es| - 1], es[|es| - 1]);
      EveryIdHasItsView(w, init, id);
      hide Agrees, Extend, OnData;
      var st := OnEvents(w, MState(map[], [], []), init);
      if e.Data? {
        DataAgrees(w, st, ViewOf(w, init, id), id, e.id, e.data);
      } else {
        NoticeAgrees(w, st, ViewOf(w, init, id), id, e);
      }
    }
  }

  function Then<M, C>(v: View<M, C>, next: View<M, C>): View<M, C> {
    View(next.residue, v.items + next.items, v.errors + next.errors)
  }

  lemma ExtendThen<M, C>(w: Wire<M, C>, v: View<M, C>, next: View<M, C>, data: bytes)
    requires w.Safe()
    ensures Extend(w, Then(v, next), data) == Then(v, Extend(w, next, data))
  {
    hide ScanAll;
    var s := ScanAll(w, next.residue + data);
    assert v.items + next.items + s.items == v.items + (next.items + s.items);
  }

  /** Lives are decoded apart: after an end of the id, or an Inactive, the rest of the stream is read as if it were
      the first, and no byte of an earlier life enters a message of a later one. */
  lemma {:induction false} LivesAreDecodedApart<M, C>(w: Wire<M, C>, before: seq<TransportEvent>, end: TransportEvent,
      after: seq<TransportEvent>, id: nat)
    requires w.Safe() && Resets(end, id)
    ensures ViewOf(w, before + [end] + after, id) == Then(ViewOf(w, before, id), ViewOf(w, after, id))
  {
    var es := before + [end] + after;
    if after == [] {
      assert es == before + [end] && es[..|es| - 1] == before;
      assert ViewOf(w, before, id).items + [] == ViewOf(w, before, id).items;
    } else {
      var (init, e) := (after[..|after| - 1], after[|after| - 1]);
      assert es[..|es| - 1] == before + [end] + init && es[|es| - 1] == e;
      LivesAreDecodedApart(w, before, end, init, id);
      if About(e, id) && e.Data? {
        ExtendThen(w, ViewOf(w, before, id), ViewOf(w, init, id), e.data);
      }
      hide Extend;
    }
  }

  /** Within one life, in which decoding does not fail, the view is one pass over all bytes received. */
  lemma OneLifeIsOnePass<M, C>(w: Wire<M, C>, es: seq<TransportEvent>, id: nat)
    requires w.Safe() && Orderly(es, id) && ScanAll(w, Received(EventsOf(es, id))).failed.None?
    ensures ViewOf(w, es, id).items == ScanAll(w, Received(EventsOf(es, id))).items && ViewOf(w, es, id).errors == 0
    ensures Undisturbed(es, id) ==> ViewOf(w, es, id).residue == ScanAll(w, Received(EventsOf(es, id))).residue
  {
    EveryIdHasItsView(w, es, id);
    ConnectionsAreIndependent(w, es, id);
    hide ScanAll, EventsOf, Received, MessagesOf, OnEvents, Orderly, Undisturbed, ViewOf, Buffered;
  }
}
