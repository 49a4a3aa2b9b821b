/**
 The handle of src/transport/interface.rs and one turn of the loop of `fetch_events`, as objects: each is a
 sequence of the protocol's actions, so that what holds for every interleaving holds for them.
 */
module InterfaceObjects {
  import opened Bytes
  import opened TransportTypes
  import opened TcpModel
  import opened TcpObject
  import opened Interface

  /** The shared ends of the channel and the waker; `tagged` records which thread sent what. */
  class Channel {
    var requests: seq<Request>
    var wakePending: bool
    ghost var tagged: seq<Tagged>

    constructor ()
      ensures requests == [] && !wakePending && tagged == []
    {
      requests, wakePending, tagged := [], false, [];
    }

    /** This is the channel of the protocol's state. */
    ghost predicate Holds(p: Protocol)
      reads this
    {
      requests == Untagged(tagged) && tagged == p.channel && wakePending == p.wakePending
    }

    /** What the loop takes: everything sent so far. */
    method TryIter(ghost p: Protocol) returns (collected: seq<Request>, ghost p': Protocol)
      requires Holds(p) && Enabled(p, Collect)
      modifies this
      ensures p' == Act(p, Collect) && Holds(p') && collected == Untagged(p'.phase.batch)
    {
      collected, requests := requests, [];
      tagged := [];
      p' := Act(p, Collect);
    }
  }

  /** Every method of the handle is this one with its own request: push, then wake. */
  class TransportInterface {
    const channel: Channel

    constructor (channel: Channel)
      ensures this.channel == channel
    {
      this.channel := channel;
    }

    method Submit(request: Request, ghost thread: nat, ghost p: Protocol) returns (ghost p': Protocol)
      requires channel.Holds(p) && Enabled(p, Send(thread)) && request == p.programs[thread][p.sent[thread]]
      modifies channel
      ensures Run(p, [Send(thread), Wake(thread)]) == Some(p') && channel.Holds(p')
    {
      RunTwo(p, Send(thread), Wake(thread));
      channel.requests := channel.requests + [request];
      channel.tagged := channel.tagged + [Tagged(thread, request)];
      channel.wakePending := true;
      p' := Act(Act(p, Send(thread)), Wake(thread));
    }
  }

  lemma RunSnoc(p: Protocol, actions: seq<Action>, action: Action)
    requires Run(p, actions).Some? && Enabled(Run(p, actions).value, action)
    ensures Run(p, actions + [action]) == Some(Act(Run(p, actions).value, action))
  {
    hide Enabled, Act;
    assert (actions + [action])[..|actions|] == actions;
  }

  lemma RunNothing(p: Protocol)
    ensures Run(p, []) == Some(p)
  {
  }

  lemma RunTwo(p: Protocol, a: Action, b: Action)
    requires Enabled(p, a) && Enabled(Act(p, a), b)
    ensures Run(p, [a, b]) == Some(Act(Act(p, a), b))
  {
    hide Enabled, Act;
    RunNothing(p);
    RunSnoc(p, [], a);
    assert [] + [a] == [a];
    RunSnoc(p, [a], b);
    assert [a] + [b] == [a, b];
  }

  lemma {:induction false} RunConcat(p: Protocol, a: seq<Action>, b: seq<Action>)
    requires Run(p, a).Some?
    ensures Run(p, a + b) == Run(Run(p, a).value, b)
  {
    hide Enabled, Act;
    if b == [] {
      assert a + b == a;
    } else {
      assert (a + b)[..|a + b| - 1] == a + b[..|b| - 1];
      RunConcat(p, a, b[..|b| - 1]);
    }
  }

  /** The collected requests, applied one by one, are the direct calls; the last action goes on to poll. */
  lemma {:induction false} ProcessAll(p: Protocol) returns (actions: seq<Action>)
    requires p.phase.Processing? && p.tcp.Running?
    ensures Run(p, actions).Some?
    ensures var (p', r) := (Run(p, actions).value, Exec(p.tcp.s, Calls(Untagged(p.phase.batch))));
            && p'.tcp == r && p'.channel == p.channel && p'.wakePending == p.wakePending
            && (r.Running? ==> p'.phase.Polling?)
    decreases |p.phase.batch|
  {
    hide Apply;
    var batch := p.phase.batch;
    RunNothing(p);
    RunSnoc(p, [], ApplyNext);
    assert [] + [ApplyNext] == [ApplyNext];
    var next := Act(p, ApplyNext);
    actions := [ApplyNext];
    if batch == [] {
      assert Calls(Untagged(batch)) == [];
    } else {
      var first := Call(batch[0].request);
      assert Calls(Untagged(batch)) == [first] + Calls(Untagged(batch[1..]));
      ExecConcat(p.tcp.s, [first], Calls(Untagged(batch[1..])));
      ExecOne(p.tcp.s, first);
      if next.tcp.Running? {
        var rest := ProcessAll(next);
        RunConcat(p, [ApplyNext], rest);
        actions := [ApplyNext] + rest;
      }
    }
  }

  /** One turn of the loop: collect, apply, poll. Poll returns because something is ready or somebody woke it. */
  method Turn(channel: Channel, transport: TcpTransport, batch: seq<PollEvent>, ghost p: Protocol)
    returns (events: seq<TransportEvent>, halt: Option<Halt>, ghost actions: seq<Action>)
    requires transport.Valid() && channel.Holds(p) && p.phase.Collecting? && p.tcp == Running(transport.Model())
    requires batch != [] || channel.wakePending
    modifies channel, transport
    ensures Run(p, actions).Some?
    ensures match Run(p, actions).value.tcp
            case Halted(why) => halt == Some(why)
            case Running(s) =>
              && halt == None && transport.Model() == s && transport.Valid() && transport.out == old(transport.out) + events
              && channel.Holds(Run(p, actions).value) && Run(p, actions).value.phase.Collecting?
  {
    hide PollRound, Apply;
    events := [];
    ghost var p1;
    var collected;
    collected, p1 := channel.TryIter(p);
    RunNothing(p);
    RunSnoc(p, [], Collect);
    assert [] + [Collect] == [Collect];
    ghost var processing := ProcessAll(p1);
    RunConcat(p, [Collect], processing);
    actions := [Collect] + processing;
    ghost var before := transport.Model();
    halt := transport.ProcessInterfaceRequests(collected);
    if halt == None {
      CallsKeepOut(before, collected);
      ghost var p2 := Run(p, actions).value;
      RunSnoc(p, actions, PollReturns(batch));
      actions := actions + [PollReturns(batch)];
      channel.wakePending := false;
      events, halt := transport.HandlePoll(batch);
    }
  }
}
