/** No connection vanishes in silence: a life that no close request has ended goes on, or its end has been told. */
module TcpEndings {
  import opened Bytes
  import opened TransportTypes
  import opened Ids
  import opened TcpModel
  import opened TcpProofs
  import opened TcpOutcomes
  import opened TcpTheorems
  import opened TcpLives

  /** Life number `n` of `id` is the current one, and its connection is there. */
  predicate Ongoing(s: Tcp, id: nat, n: nat) {
    id in s.connections && id in s.hist && |s.hist[id].before| == n
  }

  /** The last event of life number `n` of `id` is its end. */
  predicate EndTold(s: Tcp, id: nat, n: nat) {
    n < |Lives(s, id)|
    && var es := Lives(s, id)[n].events;
       es != [] && (es[|es| - 1] == Disconnected(id) || es[|es| - 1] == ConnectionFailed(id))
  }

  predicate OngoingOrTold(s: Tcp, id: nat, n: nat) {
    Ongoing(s, id, n) || EndTold(s, id, n)
  }

  lemma LiveIsUntold(id: nat, c: Connection, h: History)
    requires LiveOk(id, c, h, false)
    ensures h.events != [] ==>
              h.events[|h.events| - 1] != Disconnected(id) && h.events[|h.events| - 1] != ConnectionFailed(id)
  {
    if h.events != [] {
      var last := |h.events| - 1;
      assert last == 0 ==> h.events[last] == Connected(id);
    }
  }

  /** Life number `n` is the same in both states. */
  lemma SameLife(s: Tcp, s': Tcp, id: nat, n: nat)
    requires EndTold(s, id, n) && n < |Lives(s', id)| && Lives(s', id)[n] == Lives(s, id)[n]
    ensures EndTold(s', id, n)
  {
  }

  lemma LiveEndIsPast(s: Tcp, id: nat, n: nat)
    requires Inv(s, {}) && EndTold(s, id, n) && id in s.connections
    ensures id in s.hist && n < |s.hist[id].before|
  {
    assert IdOk(s, id, false);
    hide LiveOk, PastLives;
    LiveIsUntold(id, s.connections[id], s.hist[id]);
    hide Inv, IdOk;
  }

  /** The end of a life that has been told stays told. */
  lemma ToldStaysTold(s: Tcp, s': Tcp, id: nat, n: nat)
    requires Inv(s, {}) && EndTold(s, id, n) && Onward(s, s', id)
    ensures EndTold(s', id, n)
  {
    if id in s.connections {
      LiveEndIsPast(s, id, n);
    }
    hide Inv, EndTold;
    if id in s.connections {
      assert s.hist[id].before <= s'.hist[id].before;
    }
    SameLife(s, s', id, n) by { assert id in s'.hist; }
  }

  lemma ListenerKeepsLives(s: Tcp, disconnected: set<nat>, ev: PollEvent, id: nat)
    requires Inv(s, {}) && ev.token in s.listeners && id in s.connections && HandleToken(s, disconnected, ev).Next?
    ensures SameId(s, HandleToken(s, disconnected, ev).s, id)
  {
    var ids := PolledListener(s, disconnected, ev);
    hide HandleToken, Inv, SameId;
    assert if id in ids then Welcome(s, HandleToken(s, disconnected, ev).s, id)
           else Untouched(s, HandleToken(s, disconnected, ev).s, id);
  }

  lemma ConnectionKeepsOthers(s: Tcp, disconnected: set<nat>, ev: PollEvent, id: nat)
    requires Inv(s, {}) && ev.token in s.connections && ev.token !in disconnected && id != ev.token
    requires HandleToken(s, disconnected, ev).Next?
    ensures SameId(s, HandleToken(s, disconnected, ev).s, id)
  {
    PolledConnection(s, disconnected, ev);
    hide HandleToken, Inv, News, GivenNow, TakenNow, Survives, Tripped;
  }

  /** News of a connection that does not survive ends with its end. */
  lemma NewsEnds(s: Tcp, ev: PollEvent)
    requires ev.token in s.connections && !Survives(s, ev)
    ensures var news := News(s, ev);
            && news != []
            && (news[|news| - 1] == Disconnected(ev.token) || news[|news| - 1] == ConnectionFailed(ev.token))
  {
    hide Given, Ended, Broken;
  }

  /** What a polled connection leaves of its life. */
  lemma PolledLife(s: Tcp, disconnected: set<nat>, ev: PollEvent)
    requires Inv(s, {}) && ev.token in s.connections && ev.token !in disconnected
    requires HandleToken(s, disconnected, ev).Next?
    ensures var (id, s') := (ev.token, HandleToken(s, disconnected, ev).s);
            && id in s.hist && id in s'.hist && (id in s'.connections <==> Survives(s, ev))
            && s'.hist[id].before == s.hist[id].before && s'.hist[id].events == s.hist[id].events + News(s, ev)
  {
    PolledConnection(s, disconnected, ev);
    hide HandleToken, Inv, News, GivenNow, TakenNow, Survives, Tripped;
  }

  lemma EndsWithNews(s: Tcp, id: nat, es: seq<TransportEvent>, news: seq<TransportEvent>)
    requires id in s.hist && s.hist[id].events == es + news && news != []
    requires news[|news| - 1] == Disconnected(id) || news[|news| - 1] == ConnectionFailed(id)
    ensures EndTold(s, id, |s.hist[id].before|)
  {
    assert Lives(s, id)[|s.hist[id].before|] == ThisLife(s.hist[id]);
  }

  /** A polled connection stays, or its end is the last it tells. */
  lemma ConnectionEndIsTold(s: Tcp, disconnected: set<nat>, ev: PollEvent)
    requires Inv(s, {}) && ev.token in s.connections && ev.token !in disconnected
    requires HandleToken(s, disconnected, ev).Next?
    ensures ev.token in s.hist && OngoingOrTold(HandleToken(s, disconnected, ev).s, ev.token, |s.hist[ev.token].before|)
  {
    PolledLife(s, disconnected, ev);
    hide HandleToken, Inv, EndTold, News, Survives;
    if !Survives(s, ev) {
      NewsEnds(s, ev);
      EndsWithNews(HandleToken(s, disconnected, ev).s, ev.token, s.hist[ev.token].events, News(s, ev));
    }
  }

  lemma TokenKeepsOrTells(s: Tcp, disconnected: set<nat>, ev: PollEvent, id: nat, n: nat)
    requires Inv(s, {}) && HandleToken(s, disconnected, ev).Next? && OngoingOrTold(s, id, n)
    ensures OngoingOrTold(HandleToken(s, disconnected, ev).s, id, n)
  {
    if EndTold(s, id, n) {
      TokenOnward(s, disconnected, ev, id);
      ToldStaysTold(s, HandleToken(s, disconnected, ev).s, id, n);
    } else if ev.token in s.listeners {
      ListenerIsNoWaker(s, ev.token);
      ListenerKeepsLives(s, disconnected, ev, id);
    } else if ev.token in s.connections && ev.token !in disconnected {
      if ev.token == id {
        ConnectionEndIsTold(s, disconnected, ev);
      } else {
        ConnectionKeepsOthers(s, disconnected, ev, id);
      }
    } else {
      OtherToken(s, disconnected, ev);
    }
    hide HandleToken, Inv;
  }

  lemma {:induction false} BatchKeepsOrTells(s: Tcp, events: seq<PollEvent>, id: nat, n: nat)
    requires Inv(s, {}) && HandleBatch(s, events).Next? && OngoingOrTold(s, id, n)
    requires forall i :: 0 <= i < |events| ==> events[i].token in s.registered
    ensures OngoingOrTold(HandleBatch(s, events).s, id, n)
  {
    hide HandleToken, OngoingOrTold;
    if events != [] {
      var init := events[..|events| - 1];
      BatchKeepsOrTells(s, init, id, n);
      HandleBatchInv(s, init);
      var b := HandleBatch(s, init);
      hide Inv;
      TokenKeepsOrTells(b.s, b.disconnected, events[|events| - 1], id, n);
    }
  }

  lemma CallKeepsOrTells(s: Tcp, request: Request, id: nat, n: nat)
    requires Inv(s, {}) && Apply(s, request).Running? && OngoingOrTold(s, id, n) && !ClosesConnection(request, id)
    ensures OngoingOrTold(Apply(s, request).s, id, n)
  {
    hide Inv, Apply;
    ApplyOnward(s, request, id);
    if EndTold(s, id, n) {
      ToldStaysTold(s, Apply(s, request).s, id, n);
    } else {
      if Closes(request) {
        CloseExactness(s, request, id);
      } else if Sends(request) {
        LivesKnown(s, {});
        MulticastExactness(s, request, id);
      } else {
        OpenKeeps(s, request, id);
      }
    }
  }

  lemma OpenKeeps(s: Tcp, request: Request, id: nat)
    requires Inv(s, {}) && (request.Connect? || request.Listen?) && Apply(s, request).Running? && id in s.connections
    ensures SameId(s, Apply(s, request).s, id)
  {
    OpenExactness(s, request, id);
    PreparedIsFree(s);
    hide Inv, Apply;
  }

  /** In any run in which nothing closes the connection from this side, a connection goes on or its end is told:
      as Disconnected, or as ConnectionFailed. */
  lemma {:induction false} NoSilentEnd(s: Tcp, ops: seq<Op>, id: nat)
    requires Inv(s, {}) && id in s.connections && Exec(s, ops).Running?
    requires forall i :: 0 <= i < |ops| && ops[i].Call? ==> !ClosesConnection(ops[i].request, id)
    ensures id in s.hist && OngoingOrTold(Exec(s, ops).s, id, |s.hist[id].before|)
  {
    LivesKnown(s, {});
    var n := |s.hist[id].before|;
    if ops != [] {
      var (init, op) := (ops[..|ops| - 1], ops[|ops| - 1]);
      NoSilentEnd(s, init, id);
      ExecInv(s, init);
      hide Inv, OngoingOrTold, Apply, PollRound;
      match op {
        case Call(request) => CallKeepsOrTells(Exec(s, init).s, request, id, n);
        case Poll(batch) => PollKeepsOrTells(Exec(s, init).s, batch, id, n);
      }
    }
  }

  lemma PollKeepsOrTells(s: Tcp, batch: seq<PollEvent>, id: nat, n: nat)
    requires Inv(s, {}) && PollRound(s, batch).Running? && OngoingOrTold(s, id, n)
    ensures OngoingOrTold(PollRound(s, batch).s, id, n)
  {
    if s.connections == map[] && s.listeners == {} {
      hide Inv;
    } else {
      hide HandleBatch, Polled, OngoingOrTold;
      BatchKeepsOrTells(s, Polled(batch, s.registered.Keys), id, n);
    }
  }
}
