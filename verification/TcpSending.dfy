/** Multicast as a loop: queueing one buffer at a time adds up to the declarative effect. */
module TcpSending {
  import opened Bytes
  import opened TransportTypes
  import opened TcpModel

  lemma RepeatAdd(data: bytes, n: nat)
    ensures Repeat(data, n + 1) == Repeat(data, n) + Repeat(data, 1)
    ensures Flatten(Repeat(data, n + 1)) == Flatten(Repeat(data, n)) + data
    ensures Repeat(data, 1) == [data] && Flatten(Repeat(data, 1)) == data
    ensures Repeat(data, 0) == [] && Flatten(Repeat(data, 0)) == []
  {
    assert Flatten([]) == [];
    FlattenSnoc(Repeat(data, n), data);
    FlattenSnoc([], data);
    hide Flatten;
    assert Repeat(data, n + 1) == Repeat(data, n) + [data];
    assert Repeat(data, 1) == [] + [data] && [] + data == data;
  }

  lemma QueuedOnAdd(c: Connection, n: nat, data: bytes)
    ensures QueuedOn(QueuedOn(c, n, data), 1, data) == QueuedOn(c, n + 1, data)
    ensures QueuedOn(c, 1, data) == Connection(c.connected, READ_WRITE, c.sendBuf + data)
  {
    hide Repeat, Flatten;
    RepeatAdd(data, n);
    assert n == 0 ==> c.sendBuf + (Flatten(Repeat(data, n)) + data) == c.sendBuf + data;
    assert c.sendBuf + (Flatten(Repeat(data, n)) + data) == c.sendBuf + Flatten(Repeat(data, n)) + data;
  }

  lemma MulticastNone(s: Tcp, data: bytes)
    ensures Multicast(s, multiset{}, data) == s
  {
    var s' := Multicast(s, multiset{}, data);
    assert s'.connections == s.connections;
    assert s'.registered == s.registered;
    forall id | id in s.hist
      ensures s'.hist[id] == s.hist[id]
    {
      assert s.hist[id].queued + Repeat(data, 0) == s.hist[id].queued;
    }
    assert s'.hist == s.hist;
  }

  lemma MulticastShape(s: Tcp, targets: multiset<nat>, data: bytes)
    ensures var s' := Multicast(s, targets, data);
            && s'.connections.Keys == s.connections.Keys && s'.hist.Keys == s.hist.Keys
            && s'.registered.Keys == s.registered.Keys
            && (forall k | k in s.registered ::
                  s'.registered[k] == if k in s.connections && k in targets then READ_WRITE else s.registered[k])
            && s' == s.(connections := s'.connections, registered := s'.registered, hist := s'.hist)
  {
  }

  /** One more target, seen from one id. */
  lemma MulticastAddAt(s: Tcp, targets: multiset<nat>, id: nat, data: bytes, k: nat)
    ensures var s2 := Multicast(Multicast(s, targets, data), multiset{id}, data);
            var s3 := Multicast(s, targets + multiset{id}, data);
            && (k in s.connections ==> s2.connections[k] == s3.connections[k])
            && (k in s.registered ==> s2.registered[k] == s3.registered[k])
            && (k in s.hist ==> s2.hist[k] == s3.hist[k])
  {
    hide Repeat, QueuedOn;
    RepeatAdd(data, targets[k]);
    assert (targets + multiset{id})[k] == targets[k] + (if k == id then 1 else 0);
    if k in s.connections {
      QueuedOnAdd(s.connections[k], targets[k], data);
      QueuedOnNone(QueuedOn(s.connections[k], targets[k], data), data);
    }
    if k in s.hist {
      var (q, r) := (s.hist[k].queued, Repeat(data, targets[k]));
      assert q + r + Repeat(data, 1) == q + (r + Repeat(data, 1));
      assert q + r + Repeat(data, 0) == q + r;
    }
  }

  lemma MulticastAdd(s: Tcp, targets: multiset<nat>, id: nat, data: bytes)
    ensures Multicast(Multicast(s, targets, data), multiset{id}, data) == Multicast(s, targets + multiset{id}, data)
  {
    hide Multicast;
    var s2 := Multicast(Multicast(s, targets, data), multiset{id}, data);
    var s3 := Multicast(s, targets + multiset{id}, data);
    MulticastShape(Multicast(s, targets, data), multiset{id}, data);
    MulticastShape(s, targets, data);
    MulticastShape(s, targets + multiset{id}, data);
    forall k
      ensures k in s.connections ==> s2.connections[k] == s3.connections[k]
      ensures k in s.registered ==> s2.registered[k] == s3.registered[k]
      ensures k in s.hist ==> s2.hist[k] == s3.hist[k]
    {
      MulticastAddAt(s, targets, id, data, k);
    }
    assert s2.connections == s3.connections && s2.registered == s3.registered && s2.hist == s3.hist;
  }

  lemma QueuedOnNone(c: Connection, data: bytes)
    ensures QueuedOn(c, 0, data) == c
  {
  }

  /** Queueing to one id, seen from any id `k`. */
  lemma MulticastOneAt(s: Tcp, id: nat, data: bytes, k: nat)
    ensures var s' := Multicast(s, multiset{id}, data);
            && (k in s.connections && k == id ==>
                  s'.connections[k] == Connection(s.connections[k].connected, READ_WRITE, s.connections[k].sendBuf + data))
            && (k in s.connections && k != id ==> s'.connections[k] == s.connections[k])
            && (k in s.hist && k == id && k in s.connections ==>
                  s'.hist[k] == s.hist[k].(queued := s.hist[k].queued + [data]))
            && (k in s.hist && (k != id || k !in s.connections) ==> s'.hist[k] == s.hist[k])
  {
    hide Repeat, QueuedOn;
    RepeatAdd(data, 0);
    if k in s.connections {
      QueuedOnNone(s.connections[k], data);
      QueuedOnAdd(s.connections[k], 0, data);
    }
    if k in s.hist {
      assert s.hist[k].queued + Repeat(data, 0) == s.hist[k].queued;
    }
  }

  /** Queueing to an id without a connection does nothing. */
  lemma MulticastAbsent(s: Tcp, id: nat, data: bytes)
    requires id !in s.connections
    ensures Multicast(s, multiset{id}, data) == s
  {
    hide Multicast;
    var s' := Multicast(s, multiset{id}, data);
    MulticastShape(s, multiset{id}, data);
    forall k {
      MulticastOneAt(s, id, data, k);
    }
    assert s'.connections == s.connections;
    assert s'.registered == s.registered;
    assert s'.hist == s.hist;
  }

  /** Queueing to one connection, as the source does it: only it and its registration change. */
  lemma MulticastOne(s: Tcp, id: nat, data: bytes)
    requires id in s.connections && id in s.registered && id in s.hist
    ensures var s' := Multicast(s, multiset{id}, data);
            && s'.connections
               == s.connections[id := Connection(s.connections[id].connected, READ_WRITE, s.connections[id].sendBuf + data)]
            && s'.registered == s.registered[id := READ_WRITE]
            && s'.hist == s.hist[id := s.hist[id].(queued := s.hist[id].queued + [data])]
            && s' == s.(connections := s'.connections, registered := s'.registered, hist := s'.hist)
  {
    hide Multicast;
    var s' := Multicast(s, multiset{id}, data);
    MulticastShape(s, multiset{id}, data);
    forall k {
      MulticastOneAt(s, id, data, k);
    }
    MapUpdated(s.connections, s'.connections, id);
    MapUpdated(s.registered, s'.registered, id);
    MapUpdated(s.hist, s'.hist, id);
  }

  lemma MapUpdated<V>(m: map<nat, V>, m': map<nat, V>, id: nat)
    requires m'.Keys == m.Keys && id in m
    requires forall k | k in m && k != id :: m'[k] == m[k]
    ensures m' == m[id := m'[id]]
  {
  }
}
