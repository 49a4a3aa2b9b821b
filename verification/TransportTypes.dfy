/** Events, readiness interest and the per-connection view of an event stream, shared by both transports. */
module TransportTypes {
  import opened Bytes

  datatype TransportEvent =
    | Inactive
    | Connected(id: nat)
    | ConnectionFailed(id: nat)
    | Disconnected(id: nat)
    | Data(id: nat, data: bytes)

  datatype Interest = Interest(readable: bool, writable: bool)

  const READABLE := Interest(true, false)
  const WRITABLE := Interest(false, true)
  const READ_WRITE := Interest(true, true)

  datatype AcceptResult = NewStream | AcceptWouldBlock | AcceptError

  /** How many streams an accept loop collects, or none if accepting fails. */
  function AcceptSummary(script: seq<AcceptResult>): Option<nat> {
    if script == [] || script[0].AcceptWouldBlock? then Some(0)
    else if script[0].AcceptError? then None
    else
      match AcceptSummary(script[1..])
      case None => None
      case Some(n) => Some(n + 1)
  }

  /** The accept loop of both transports. */
  method CollectStreams(script: seq<AcceptResult>) returns (accepted: Option<nat>)
    ensures accepted == AcceptSummary(script)
  {
    var streams := 0;
    for i := 0 to |script|
      invariant AcceptSummary(script) == match AcceptSummary(script[i..])
                                         case None => None
                                         case Some(n) => Some(n + streams)
    {
      assert script[i..][1..] == script[i + 1..];
      match script[i] {
        case NewStream => streams := streams + 1;
        case AcceptWouldBlock => return Some(streams);
        case AcceptError => return None;
      }
    }
    accepted := Some(streams);
  }

  predicate About(e: TransportEvent, id: nat) {
    !e.Inactive? && e.id == id
  }

  /** The events of `es` that carry the connection id `id`, in order. */
  function EventsOf(es: seq<TransportEvent>, id: nat): seq<TransportEvent> {
    if es == [] then []
    else
      var last := es[|es| - 1];
      EventsOf(es[..|es| - 1], id) + (if About(last, id) then [last] else [])
  }

  lemma EventsOfSnoc(es: seq<TransportEvent>, e: TransportEvent, id: nat)
    ensures EventsOf(es + [e], id) == EventsOf(es, id) + (if About(e, id) then [e] else [])
  {
    assert (es + [e])[..|es|] == es;
  }

  lemma {:induction false} EventsOfConcat(a: seq<TransportEvent>, b: seq<TransportEvent>, id: nat)
    ensures EventsOf(a + b, id) == EventsOf(a, id) + EventsOf(b, id)
  {
    if b == [] {
      assert a + b == a;
    } else {
      var init, last := b[..|b| - 1], b[|b| - 1];
      assert a + b == (a + init) + [last];
      assert b == init + [last];
      EventsOfSnoc(a + init, last, id);
      EventsOfSnoc(init, last, id);
      EventsOfConcat(a, init, id);
    }
  }

  /** The bytes carried by the Data events of `es`, whatever their connection. */
  function Received(es: seq<TransportEvent>): bytes {
    if es == [] then []
    else
      var last := es[|es| - 1];
      Received(es[..|es| - 1]) + (if last.Data? then last.data else [])
  }

  lemma ReceivedSnoc(es: seq<TransportEvent>, e: TransportEvent)
    ensures Received(es + [e]) == Received(es) + (if e.Data? then e.data else [])
  {
    assert (es + [e])[..|es|] == es;
  }

  lemma {:induction false} ReceivedConcat(a: seq<TransportEvent>, b: seq<TransportEvent>)
    ensures Received(a + b) == Received(a) + Received(b)
  {
    if b == [] {
      assert a + b == a;
    } else {
      var init, last := b[..|b| - 1], b[|b| - 1];
      assert a + b == (a + init) + [last];
      assert b == init + [last];
      ReceivedSnoc(a + init, last);
      ReceivedSnoc(init, last);
      ReceivedConcat(a, init);
    }
  }

  /** Events after which nothing of connection `id` is buffered any more. */
  predicate Resets(e: TransportEvent, id: nat) {
    e.Inactive? || (About(e, id) && (e.Disconnected? || e.ConnectionFailed?))
  }

  /** No reset of `id` since its first data. */
  predicate Undisturbed(es: seq<TransportEvent>, id: nat) {
    es == [] ||
    var (init, last) := (es[..|es| - 1], es[|es| - 1]);
    if Resets(last, id) then Received(EventsOf(init, id)) == [] else Undisturbed(init, id)
  }

  /** Data of `id` arrives only while undisturbed. */
  predicate Orderly(es: seq<TransportEvent>, id: nat) {
    es == [] ||
    var (init, last) := (es[..|es| - 1], es[|es| - 1]);
    Orderly(init, id) && (About(last, id) && last.Data? ==> Undisturbed(init, id))
  }

  lemma OrderSnoc(es: seq<TransportEvent>, e: TransportEvent, id: nat)
    ensures Undisturbed(es + [e], id)
            == if Resets(e, id) then Received(EventsOf(es, id)) == [] else Undisturbed(es, id)
    ensures Orderly(es + [e], id) == (Orderly(es, id) && (About(e, id) && e.Data? ==> Undisturbed(es, id)))
  {
    assert (es + [e])[..|es|] == es;
  }

  lemma {:induction false} NoEventsNoDisorder(es: seq<TransportEvent>, id: nat)
    requires EventsOf(es, id) == []
    ensures Undisturbed(es, id) && Orderly(es, id)
  {
    if es != [] {
      NoEventsNoDisorder(es[..|es| - 1], id);
    }
  }
}
