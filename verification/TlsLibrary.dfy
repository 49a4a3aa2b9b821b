/** The loops of the TLS transport against the TLS library: what the transport counts as taken is what the library
    took, and what it has read is what the library handed over. */
module TlsLibrary {
  import opened Bytes
  import opened TlsModel

  /** One more pass, on the library's side. */
  lemma TakenStep(script: seq<WritePass>, pending: bytes)
    requires script != []
    ensures var now := Accepted(script[0], pending);
            if WriterFails(script[0], pending) then Taken(script, pending) == []
            else if script[0].socket.WroteEncrypted? then
              Taken(script, pending) == now + Taken(script[1..], pending[|now|..])
            else Taken(script, pending) == now
  {
    var now := Accepted(script[0], pending);
    if !WriterFails(script[0], pending) {
      if script[0].socket.WroteEncrypted? {
        FlattenCons(now, Takings(script[1..], pending[|now|..]));
      } else {
        FlattenCons(now, []);
        assert [now] + [] == [now] && now + [] == now;
      }
    }
  }

  lemma BrokenStep(script: seq<WritePass>, pending: bytes)
    requires script != []
    ensures var now := Accepted(script[0], pending);
            Broken(script, pending)
            <==> if WriterFails(script[0], pending) then true
                 else if script[0].socket.WroteEncrypted? then Broken(script[1..], pending[|now|..])
                 else script[0].socket.WriteError?
  {
  }

  /** Whether there is progress shows in the first pass. */
  lemma FirstPassMoves(script: seq<WritePass>, pending: bytes)
    requires script != []
    ensures WriteMoves(script, pending)
            <==> !WriterFails(script[0], pending)
                 && (Accepted(script[0], pending) != [] || script[0].socket.WroteEncrypted?)
  {
    TakenStep(script, pending);
    hide Taken;
  }

  /** Before pass `i`: what has been taken, and what the passes to come will add to it. */
  predicate Reached(script: seq<WritePass>, offered: bytes, i: nat, taken: bytes, rest: bytes)
    requires i <= |script|
  {
    && taken + Taken(script[i..], rest) == Taken(script, offered)
    && (Broken(script[i..], rest) <==> Broken(script, offered))
  }

  lemma ReachedFirst(script: seq<WritePass>, offered: bytes)
    ensures Reached(script, offered, 0, [], offered)
  {
    assert script[0..] == script && [] + Taken(script, offered) == Taken(script, offered);
  }

  lemma ReachedNext(script: seq<WritePass>, offered: bytes, i: nat, taken: bytes, rest: bytes)
    requires i < |script| && Reached(script, offered, i, taken, rest)
    ensures var now := Accepted(script[i], rest);
            if WriterFails(script[i], rest) then taken == Taken(script, offered) && Broken(script, offered)
            else if script[i].socket.WroteEncrypted? then Reached(script, offered, i + 1, taken + now, rest[|now|..])
            else taken + now == Taken(script, offered) && (Broken(script, offered) <==> script[i].socket.WriteError?)
  {
    var now := Accepted(script[i], rest);
    TakenStep(script[i..], rest);
    BrokenStep(script[i..], rest);
    hide Taken, Broken;
    assert script[i..][0] == script[i] && script[i..][1..] == script[i + 1..] && taken + [] == taken;
    assert taken + (now + Taken(script[i + 1..], rest[|now|..])) == taken + now + Taken(script[i + 1..], rest[|now|..]);
  }

  lemma ReachedEnd(script: seq<WritePass>, offered: bytes, taken: bytes, rest: bytes)
    requires Reached(script, offered, |script|, taken, rest)
    ensures taken == Taken(script, offered) && !Broken(script, offered)
  {
    NothingTaken(rest);
    assert script[|script|..] == [] && taken + [] == taken;
  }

  lemma NothingTaken(pending: bytes)
    ensures Taken([], pending) == [] && !Broken([], pending) && !WriteMoves([], pending)
  {
  }

  lemma NothingOffered(script: seq<WritePass>)
    ensures Taken(script, []) == []
    decreases |script|
  {
    if script != [] {
      TakenStep(script, []);
      NothingOffered(script[1..]);
    }
  }

  lemma {:induction false} TakenIsPrefix(script: seq<WritePass>, pending: bytes)
    ensures Taken(script, pending) <= pending
    decreases |script|
  {
    if script == [] {
      NothingTaken(pending);
    } else {
      TakenStep(script, pending);
      var now := Accepted(script[0], pending);
      assert now <= pending && pending == now + pending[|now|..];
      TakenIsPrefix(script[1..], pending[|now|..]);
      hide Taken, Accepted;
    }
  }

  /** The write loop advances by exactly the bytes the library takes, the first of those offered; it fails exactly
      when the library or the socket does, and reports progress exactly when there was some. */
  lemma {:induction false} SentIsTaken(script: seq<WritePass>, pending: bytes)
    ensures WriteSummary(script, |pending|, true)
            == WriteIo(|Taken(script, pending)|, Broken(script, pending), WriteMoves(script, pending))
    decreases |script|
  {
    if script == [] {
      NothingTaken(pending);
    } else {
      TakenStep(script, pending);
      BrokenStep(script, pending);
      FirstPassMoves(script, pending);
      hide Taken, Broken, WriteMoves;
      if !WriterFails(script[0], pending) && script[0].socket.WroteEncrypted? {
        SentIsTaken(script[1..], pending[|Accepted(script[0], pending)|..]);
      }
    }
  }

  /** Before the handshake is complete the loop does what it does with nothing to send. */
  lemma {:induction false} NothingBeforeHandshake(script: seq<WritePass>, size: nat)
    ensures WriteSummary(script, size, false) == WriteSummary(script, 0, true)
    decreases |script|
  {
    if script != [] {
      NothingBeforeHandshake(script[1..], size);
    }
  }

  /** The write loop against the library, for a connection in either state. */
  lemma LoopTakesOffered(script: seq<WritePass>, c: Connection)
    ensures var taken := Taken(script, Offered(c));
            && WriteSummary(script, |c.sendBuf|, c.status.TlsConnected?)
               == WriteIo(|taken|, Broken(script, Offered(c)), WriteMoves(script, Offered(c)))
            && taken <= Offered(c) && taken <= c.sendBuf
  {
    hide Taken, Broken, WriteMoves, WriteSummary;
    SentIsTaken(script, Offered(c));
    TakenIsPrefix(script, Offered(c));
    NothingBeforeHandshake(script, |c.sendBuf|);
  }

  lemma GivenStep(script: seq<ReadPass>, size: nat)
    requires script != []
    ensures var now := Filled(script[0], size);
            if CutOff(script[0]) || now == [] then
              && Given(script, size) == []
              && (Ended(script, size) <==> CutOff(script[0]) || script[0].reader.PlainError?)
            else
              && Given(script, size) == now + Given(script[1..], size)
              && (Ended(script, size) <==> Ended(script[1..], size))
  {
    var now := Filled(script[0], size);
    if !CutOff(script[0]) && now != [] {
      var rest := Fillings(script[1..], size);
      FlattenCons(now, rest);
      assert |rest| < |script[1..]| ==> script[1..][|rest|] == script[|rest| + 1];
    }
  }

  lemma NothingGiven(size: nat)
    ensures Given([], size) == [] && !Ended([], size)
  {
  }

  /** The read loop returns exactly the plaintext the library hands over, reports the connection lost exactly when
      it is, and progress exactly when there was some. */
  lemma {:induction false} ReadIsGiven(script: seq<ReadPass>, size: nat)
    ensures ReadSummary(script, size) == ReadIo(Given(script, size), Ended(script, size), ReadMoves(script, size))
  {
    if script == [] {
      NothingGiven(size);
    } else {
      GivenStep(script, size);
      hide Given, Ended;
      if !CutOff(script[0]) && Filled(script[0], size) != [] {
        ReadIsGiven(script[1..], size);
      }
    }
  }
}
