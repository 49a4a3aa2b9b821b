/** The loops of the TCP transport against the sockets: what the transport counts as sent is what the socket took,
    and what it has read is what the socket handed over. */
module TcpSockets {
  import opened Bytes
  import opened TransportTypes
  import opened TcpModel

  /** One more answer, on the socket's side. */
  lemma TakenStep(script: seq<WriteResult>, pending: bytes)
    requires script != []
    ensures var now := Accepted(script[0], pending);
            if now == [] then
              && Taken(script, pending) == []
              && (Broken(script, pending) <==> pending != [] && script[0].WriteError?)
            else
              && Taken(script, pending) == now + Taken(script[1..], pending[|now|..])
              && (Broken(script, pending) <==> Broken(script[1..], pending[|now|..]))
  {
    var now := Accepted(script[0], pending);
    if now != [] {
      var rest := Takings(script[1..], pending[|now|..]);
      FlattenCons(now, rest);
      assert pending == now + pending[|now|..];
      assert Taken(script, pending) == pending <==> Taken(script[1..], pending[|now|..]) == pending[|now|..];
      assert |rest| < |script[1..]| ==> script[1..][|rest|] == script[|rest| + 1];
    }
  }

  lemma TakenNothing(script: seq<WriteResult>, pending: bytes)
    requires script == [] || pending == []
    ensures Taken(script, pending) == [] && !Broken(script, pending)
  {
  }

  /** The write loop advances by exactly the bytes the socket takes, which are the first of the pending ones, and
      fails exactly when the socket does. */
  lemma {:induction false} SentIsTaken(script: seq<WriteResult>, pending: bytes)
    ensures WriteSummary(script, |pending|) == WriteIo(|Taken(script, pending)|, Broken(script, pending))
    ensures Taken(script, pending) <= pending
    decreases |script|
  {
    hide Taken, Takings, Broken;
    if script == [] || pending == [] {
      TakenNothing(script, pending);
    } else {
      TakenStep(script, pending);
      var now := Accepted(script[0], pending);
      if now != [] {
        SentIsTaken(script[1..], pending[|now|..]);
        assert pending == now + pending[|now|..];
      }
    }
  }

  /** The sum of the positive counts a socket begins with. */
  function Counts(script: seq<WriteResult>): nat {
    if script == [] || !script[0].Wrote? || script[0].count == 0 then 0
    else script[0].count + Counts(script[1..])
  }

  /** Partial writes add up: of the pending bytes as many are taken as the counts say, however they are cut. */
  lemma {:induction false} PartialWritesAddUp(script: seq<WriteResult>, pending: bytes)
    ensures Taken(script, pending) == pending[..Min(Counts(script), |pending|)]
    decreases |script|
  {
    hide Taken, Takings, Broken;
    if script == [] || pending == [] {
      TakenNothing(script, pending);
    } else {
      TakenStep(script, pending);
      var now := Accepted(script[0], pending);
      if now != [] {
        PartialWritesAddUp(script[1..], pending[|now|..]);
        assert pending == now + pending[|now|..];
      }
    }
  }

  lemma GivenStep(script: seq<ReadResult>, size: nat)
    requires script != []
    ensures var now := Filled(script[0], size);
            if now == [] then
              && Given(script, size) == []
              && (Ended(script, size) <==> !script[0].ReadWouldBlock?)
            else
              && Given(script, size) == now + Given(script[1..], size)
              && (Ended(script, size) <==> Ended(script[1..], size))
  {
    var now := Filled(script[0], size);
    if now != [] {
      var rest := Fillings(script[1..], size);
      FlattenCons(now, rest);
      assert |rest| < |script[1..]| ==> script[1..][|rest|] == script[|rest| + 1];
    }
  }

  lemma NothingGiven(size: nat)
    ensures Given([], size) == [] && !Ended([], size)
  {
  }

  /** The read loop returns exactly the bytes the socket hands over, and reports the connection closed exactly
      when the socket has ended. */
  lemma {:induction false} ReadIsGiven(script: seq<ReadResult>, size: nat)
    ensures ReadSummary(script, size) == ReadIo(Given(script, size), Ended(script, size))
  {
    if script != [] {
      GivenStep(script, size);
      hide Given, Fillings, Ended;
      if Filled(script[0], size) != [] {
        ReadIsGiven(script[1..], size);
      }
    }
  }

  /** The buffer without its first `taken` bytes, and the interest it calls for. */
  function Rest(c: Connection, taken: bytes): Connection
    requires |taken| <= |c.sendBuf|
  {
    var rest := c.sendBuf[|taken|..];
    Connection(true, if rest == [] then READABLE else if c.connected then c.interest else READ_WRITE, rest)
  }

  /** A call of `write_connection` against the socket. */
  lemma WriteStates(s: Tcp, id: nat, socketError: bool, script: seq<WriteResult>)
    requires id in s.connections
    ensures var c := s.connections[id];
            var taken := Taken(script, c.sendBuf);
            && taken <= c.sendBuf
            && WriteConnection(s, id, socketError, script)
               == if !c.connected && socketError then WriteEffect(Drop(s, id), WriteConnectionFailed, 0)
                  else if Broken(script, c.sendBuf) then
                    WriteEffect(RecordWritten(Drop(s, id), id, taken), WriteDisconnected, |taken|)
                  else
                    WriteEffect(RecordWritten(Put(s, id, Rest(c, taken)), id, taken),
                                if c.connected then WriteOk else WriteConnected, |taken|)
  {
    SentIsTaken(script, s.connections[id].sendBuf);
    hide WriteSummary, Taken, Broken;
  }
}
