/**
 The TCP transport of src/transport/tcp.rs as a state machine. The kernel is the environment: every poll
 event carries the answers the sockets will give while it is handled, and all theorems are for all answers.
 `hist` and `out` record what has happened; nothing in the machine depends on them.
 */
module TcpModel {
  import opened Bytes
  import opened TransportTypes
  import opened Ids

  const MAX_SPURIOUS_WAKEUPS: nat := 10

  datatype Connection = Connection(connected: bool, interest: Interest, sendBuf: bytes)

  /** A lifetime that is over: whether it began with `connect`, its events, the buffers queued in it, and what
      its socket took and handed over. */
  datatype Life = Life(
    outgoing: bool,
    events: seq<TransportEvent>,
    queued: seq<bytes>,
    written: bytes,
    received: bytes)

  /** One lifetime of a connection id: how it began, the earlier lifetimes of the same id, the events of this
      one and the buffers queued for sending; and, as the socket knows them, the bytes it took from the transport
      and the bytes it handed over. */
  datatype History = History(
    outgoing: bool,
    before: seq<Life>,
    events: seq<TransportEvent>,
    queued: seq<bytes>,
    written: bytes,
    received: bytes)

  datatype Tcp = Tcp(
    connections: map<nat, Connection>,
    listeners: set<nat>,
    nextId: ConnectionId,
    registered: map<nat, Interest>,
    spurious: nat,
    maxRead: nat,
    hist: map<nat, History>,
    out: seq<TransportEvent>)

  /** Every way a call does not return: failed `assert!`/`expect`, an `Err` from accepting, and the id search
      that never ends. */
  datatype Halt =
    | MissingConnection
    | NoReadiness
    | ReadBeforeConnected
    | TooManySpurious
    | AcceptFailed
    | IdsExhausted

  datatype Outcome = Running(s: Tcp) | Halted(why: Halt)

  // ---------------------------------------------------------------------------
  // The environment
  // ---------------------------------------------------------------------------

  /** `Chunk([])` is the end of the stream; a chunk longer than the slice offered is cut to it. */
  datatype ReadResult = Chunk(data: bytes) | ReadWouldBlock | ReadError

  /** A count beyond the slice offered is cut to it; `Wrote(0)` is the socket's answer 0. */
  datatype WriteResult = Wrote(count: nat) | WriteWouldBlock | WriteError

  /** A polled token with its readiness, and the answers of the sockets, of `accept` and of `take_error`
      while it is handled. An answer list that runs out would block. */
  datatype PollEvent = PollEvent(
    token: nat,
    readable: bool,
    writable: bool,
    acceptScript: seq<AcceptResult>,
    readScript: seq<ReadResult>,
    socketError: bool,
    writeScript: seq<WriteResult>)

  // What a socket does when it gives such answers, whatever the transport makes of them.

  /** What the socket puts into a slice of `size` bytes. */
  function Filled(answer: ReadResult, size: nat): bytes {
    if answer.Chunk? then answer.data[..Min(|answer.data|, size)] else []
  }

  /** The slices the socket fills before it has nothing more, or ends. */
  function Fillings(script: seq<ReadResult>, size: nat): seq<bytes> {
    if script == [] || Filled(script[0], size) == [] then []
    else [Filled(script[0], size)] + Fillings(script[1..], size)
  }

  /** All bytes the socket hands over. */
  function Given(script: seq<ReadResult>, size: nat): bytes {
    Flatten(Fillings(script, size))
  }

  /** After that the peer has closed, or reading has failed. */
  predicate Ended(script: seq<ReadResult>, size: nat) {
    var k := |Fillings(script, size)|;
    k < |script| && !script[k].ReadWouldBlock?
  }

  /** What the socket takes of a slice offered to it. */
  function Accepted(answer: WriteResult, slice: bytes): bytes {
    if answer.Wrote? then slice[..Min(answer.count, |slice|)] else []
  }

  /** The parts the socket takes, each from the front of what is left, before it takes nothing. */
  function Takings(script: seq<WriteResult>, pending: bytes): seq<bytes>
    decreases |script|
  {
    if script == [] || Accepted(script[0], pending) == [] then []
    else [Accepted(script[0], pending)] + Takings(script[1..], pending[|Accepted(script[0], pending)|..])
  }

  /** All bytes the socket takes. */
  function Taken(script: seq<WriteResult>, pending: bytes): bytes {
    Flatten(Takings(script, pending))
  }

  /** Bytes are left and the write of them fails. */
  predicate Broken(script: seq<WriteResult>, pending: bytes) {
    var k := |Takings(script, pending)|;
    Taken(script, pending) != pending && k < |script| && script[k].WriteError?
  }

  // What the loops of the transport make of them.

  datatype ReadIo = ReadIo(data: bytes, closed: bool)

  /** All bytes a read loop collects, and whether it ended with the connection closed. */
  function ReadSummary(script: seq<ReadResult>, maxRead: nat): ReadIo {
    if script == [] || script[0].ReadWouldBlock? then ReadIo([], false)
    else if script[0].ReadError? then ReadIo([], true)
    else
      var got := script[0].data[..Min(|script[0].data|, maxRead)];
      if got == [] then ReadIo([], true)
      else
        var rest := ReadSummary(script[1..], maxRead);
        ReadIo(got + rest.data, rest.closed)
  }

  datatype WriteIo = WriteIo(sent: nat, failed: bool)

  /** How many of `size` pending bytes a write loop hands over, and whether it ended with an error. */
  function WriteSummary(script: seq<WriteResult>, size: nat): (io: WriteIo)
    ensures io.sent <= size && (io.failed ==> io.sent < size)
  {
    if size == 0 || script == [] || script[0].WriteWouldBlock? then WriteIo(0, false)
    else if script[0].WriteError? then WriteIo(0, true)
    else
      var count := Min(script[0].count, size);
      if count == 0 then WriteIo(0, false)
      else
        var rest := WriteSummary(script[1..], size - count);
        WriteIo(count + rest.sent, rest.failed)
  }

  /** Poll reports registered tokens only, any of them any number of times. */
  function Polled(batch: seq<PollEvent>, tokens: set<nat>): (r: seq<PollEvent>)
    ensures forall i :: 0 <= i < |r| ==> r[i].token in tokens
  {
    if batch == [] then []
    else
      var last := batch[|batch| - 1];
      Polled(batch[..|batch| - 1], tokens) + (if last.token in tokens then [last] else [])
  }

  // ---------------------------------------------------------------------------
  // Bookkeeping
  // ---------------------------------------------------------------------------

  function Init(maxRead: nat): Tcp {
    Tcp(map[], {}, ID_RANGE_START, map[WAKE_ID := READABLE], 0, maxRead, map[], [])
  }

  function Live(s: Tcp): set<nat> {
    s.connections.Keys + s.listeners
  }

  /** Ids are left for `n` more connections or listeners and the one prepared after them. */
  predicate Room(s: Tcp, n: nat) {
    |s.connections| + |s.listeners| + n < ID_COUNT
  }

  function ThisLife(h: History): Life {
    Life(h.outgoing, h.events, h.queued, h.written, h.received)
  }

  /** All lifetimes of an id so far. */
  function Lives(s: Tcp, id: nat): seq<Life> {
    if id in s.hist then s.hist[id].before + [ThisLife(s.hist[id])] else []
  }

  function Told(lives: seq<Life>): seq<TransportEvent> {
    if lives == [] then [] else Told(lives[..|lives| - 1]) + lives[|lives| - 1].events
  }

  /** Events of all lifetimes of an id so far. */
  function Past(s: Tcp, id: nat): seq<TransportEvent> {
    if id in s.hist then Told(s.hist[id].before) + s.hist[id].events else []
  }

  lemma PastIsTold(s: Tcp, id: nat)
    ensures Past(s, id) == Told(Lives(s, id))
  {
    if id in s.hist {
      var h := s.hist[id];
      assert (h.before + [ThisLife(h)])[..|h.before|] == h.before;
    }
  }

  lemma RoomLeavesFree(s: Tcp)
    requires Room(s, 1)
    ensures HasFree(Live(s) + {s.nextId})
  {
    FewerUsedThanRangeLeavesFree(Live(s) + {s.nextId});
  }

  ghost function NextAfterBirth(s: Tcp): (next: ConnectionId)
    requires Room(s, 1)
    ensures next !in Live(s) && next != s.nextId
  {
    RoomLeavesFree(s);
    NextFree(Live(s) + {s.nextId}, s.nextId)
  }

  ghost function AddConnection(s: Tcp, outgoing: bool, conn: Connection): Tcp
    requires Room(s, 1)
  {
    s.(connections := s.connections[s.nextId := conn],
       registered := s.registered[s.nextId := conn.interest],
       hist := s.hist[s.nextId := History(outgoing, Lives(s, s.nextId), [], [], [], [])],
       nextId := NextAfterBirth(s))
  }

  ghost function AddListener(s: Tcp): Tcp
    requires Room(s, 1)
  {
    s.(listeners := s.listeners + {s.nextId},
       registered := s.registered[s.nextId := READABLE],
       nextId := NextAfterBirth(s))
  }

  function Put(s: Tcp, id: nat, conn: Connection): Tcp {
    s.(connections := s.connections[id := conn], registered := s.registered[id := conn.interest])
  }

  function Drop(s: Tcp, id: nat): Tcp {
    s.(connections := s.connections - {id}, registered := s.registered - {id})
  }

  function RecordWritten(s: Tcp, id: nat, data: bytes): Tcp {
    if id in s.hist then s.(hist := s.hist[id := s.hist[id].(written := s.hist[id].written + data)]) else s
  }

  function RecordReceived(s: Tcp, id: nat, data: bytes): Tcp {
    if id in s.hist then s.(hist := s.hist[id := s.hist[id].(received := s.hist[id].received + data)]) else s
  }

  function Emit(s: Tcp, e: TransportEvent): Tcp {
    var s := s.(out := s.out + [e]);
    if !e.Inactive? && e.id in s.hist then
      s.(hist := s.hist[e.id := s.hist[e.id].(events := s.hist[e.id].events + [e])])
    else s
  }

  function Track(s: Tcp, isSpurious: bool): Outcome {
    if !isSpurious then Running(s.(spurious := 0))
    else if s.spurious + 1 > MAX_SPURIOUS_WAKEUPS then Halted(TooManySpurious)
    else Running(s.(spurious := s.spurious + 1))
  }

  // ---------------------------------------------------------------------------
  // Sending
  // ---------------------------------------------------------------------------

  function Repeat(data: bytes, n: nat): seq<bytes> {
    seq(n, i => data)
  }

  function QueuedOn(c: Connection, n: nat, data: bytes): Connection {
    if n == 0 then c else c.(sendBuf := c.sendBuf + Flatten(Repeat(data, n)), interest := READ_WRITE)
  }

  /** The whole sending family, declaratively: `data` is queued `targets[id]` times on every live
      connection `id`, and nothing else changes. */
  function Multicast(s: Tcp, targets: multiset<nat>, data: bytes): Tcp {
    s.(connections := map id | id in s.connections :: QueuedOn(s.connections[id], targets[id], data),
       registered := map id | id in s.registered ::
         if id in s.connections && id in targets then READ_WRITE else s.registered[id],
       hist := map id | id in s.hist ::
         if id in s.connections then s.hist[id].(queued := s.hist[id].queued + Repeat(data, targets[id]))
         else s.hist[id])
  }

  // ---------------------------------------------------------------------------
  // Requests: the calls of the transport, direct or through the interface
  // ---------------------------------------------------------------------------

  /** `Connect(ok)` and `Listen(ok)` carry whether the operating system grants a socket. */
  datatype Request =
    | Connect(ok: bool)
    | Listen(ok: bool)
    | CloseConnection(id: nat)
    | CloseAllConnections
    | CloseListener(id: nat)
    | CloseAllListeners
    | CloseAll
    | SendTo(id: nat, data: bytes)
    | SendToMany(ids: seq<nat>, data: bytes)
    | Broadcast(data: bytes)
    | BroadcastExcept(data: bytes, exceptId: nat)
    | BroadcastExceptMany(data: bytes, exceptIds: seq<nat>)

  function DropAll(s: Tcp): Tcp {
    s.(connections := map[], registered := s.registered - s.connections.Keys)
  }

  function DropListener(s: Tcp, id: nat): Tcp {
    s.(listeners := s.listeners - {id}, registered := s.registered - {id})
  }

  function DropAllListeners(s: Tcp): Tcp {
    s.(listeners := {}, registered := s.registered - s.listeners)
  }

  ghost function Apply(s: Tcp, request: Request): Outcome {
    match request
    case Connect(ok) =>
      if !ok then Running(s)
      else if !Room(s, 1) then Halted(IdsExhausted)
      else Running(AddConnection(s, true, Connection(false, WRITABLE, [])))
    case Listen(ok) =>
      if !ok then Running(s)
      else if !Room(s, 1) then Halted(IdsExhausted)
      else Running(AddListener(s))
    case CloseConnection(id) => Running(if id in s.connections then Drop(s, id) else s)
    case CloseAllConnections => Running(DropAll(s))
    case CloseListener(id) => Running(if id in s.listeners then DropListener(s, id) else s)
    case CloseAllListeners => Running(DropAllListeners(s))
    case CloseAll => Running(DropAll(DropAllListeners(s)))
    case SendTo(id, data) => Running(Multicast(s, multiset{id}, data))
    case SendToMany(ids, data) => Running(Multicast(s, multiset(ids), data))
    case Broadcast(data) => Running(Multicast(s, multiset(s.connections.Keys), data))
    case BroadcastExcept(data, exceptId) => Running(Multicast(s, multiset(s.connections.Keys - {exceptId}), data))
    case BroadcastExceptMany(data, exceptIds) =>
      Running(Multicast(s, multiset(s.connections.Keys - (set id | id in exceptIds)), data))
  }

  // ---------------------------------------------------------------------------
  // Handling one polled token
  // ---------------------------------------------------------------------------

  /** `n` accepted streams become connections, with consecutive free ids. */
  ghost function AcceptMany(s: Tcp, n: nat): (r: (Tcp, seq<nat>))
    requires Room(s, n)
    ensures |r.0.connections| <= |s.connections| + n && r.0.listeners == s.listeners
  {
    if n == 0 then (s, [])
    else
      var (s1, ids) := AcceptMany(s, n - 1);
      (AddConnection(s1, false, Connection(true, READABLE, [])), ids + [s1.nextId])
  }

  function EmitConnected(s: Tcp, ids: seq<nat>): Tcp {
    if ids == [] then s else Emit(EmitConnected(s, ids[..|ids| - 1]), Connected(ids[|ids| - 1]))
  }

  function EmitData(s: Tcp, id: nat, data: bytes): Tcp {
    if data == [] then s else Emit(s, Data(id, data))
  }

  ghost function AcceptPhase(s: Tcp, script: seq<AcceptResult>): Outcome {
    match AcceptSummary(script)
    case None => Halted(AcceptFailed)
    case Some(n) =>
      if !Room(s, n) then Halted(IdsExhausted)
      else
        var (s1, ids) := AcceptMany(s, n);
        match Track(s1, n == 0)
        case Halted(why) => Halted(why)
        case Running(s2) => Running(EmitConnected(s2, ids))
  }

  datatype WriteOutcome = WriteOk | WriteConnected | WriteDisconnected | WriteConnectionFailed

  datatype WriteEffect = WriteEffect(s: Tcp, outcome: WriteOutcome, sent: nat)

  /** `write_connection` but for the spurious-wakeup counter. */
  function WriteConnection(s: Tcp, id: nat, socketError: bool, script: seq<WriteResult>): WriteEffect
    requires id in s.connections
  {
    var c := s.connections[id];
    if !c.connected && socketError then WriteEffect(Drop(s, id), WriteConnectionFailed, 0)
    else
      var io := WriteSummary(script, |c.sendBuf|);
      var s1 := RecordWritten(s, id, Taken(script, c.sendBuf));
      if io.failed then WriteEffect(Drop(s1, id), WriteDisconnected, io.sent)
      else
        var interest :=
          if io.sent == |c.sendBuf| then READABLE else if c.connected then c.interest else READ_WRITE;
        WriteEffect(Put(s1, id, Connection(true, interest, c.sendBuf[io.sent..])),
                    if c.connected then WriteOk else WriteConnected, io.sent)
  }

  /** A phase leaves the connection there, takes it away, or halts. */
  datatype Phase = Stays(s: Tcp) | Leaves(s: Tcp) | Stops(why: Halt)

  function ReadPhase(s: Tcp, ev: PollEvent): Phase
    requires ev.token in s.connections
  {
    if !ev.readable then Stays(s)
    else if !s.connections[ev.token].connected then Stops(ReadBeforeConnected)
    else
      var io := ReadSummary(ev.readScript, s.maxRead);
      var given := Given(ev.readScript, s.maxRead);
      if io.closed then
        var s1 := RecordReceived(Drop(s, ev.token), ev.token, given);
        Leaves(Emit(EmitData(s1, ev.token, io.data), Disconnected(ev.token)))
      else
        match Track(s, io.data == [])
        case Halted(why) => Stops(why)
        case Running(s1) => Stays(EmitData(RecordReceived(s1, ev.token, given), ev.token, io.data))
  }

  function WritePhase(s: Tcp, ev: PollEvent): Phase
    requires ev.token in s.connections
  {
    if !ev.writable then Stays(s)
    else
      var w := WriteConnection(s, ev.token, ev.socketError, ev.writeScript);
      match w.outcome
      case WriteConnected => Stays(Emit(w.s, Connected(ev.token)))
      case WriteDisconnected => Leaves(Emit(w.s, Disconnected(ev.token)))
      case WriteConnectionFailed => Leaves(Emit(w.s, ConnectionFailed(ev.token)))
      case WriteOk =>
        match Track(w.s, w.sent == 0)
        case Halted(why) => Stops(why)
        case Running(s1) => Stays(s1)
  }

  datatype Handled = Next(s: Tcp, disconnected: set<nat>) | Stopped(why: Halt)

  /** The body of the event loop of `fetch_events`; `disconnected` is its `disconnected_ids`. */
  ghost function HandleToken(s: Tcp, disconnected: set<nat>, ev: PollEvent): Handled {
    var id := ev.token;
    if id == WAKE_ID then Next(s, disconnected)
    else if id in s.listeners then
      match AcceptPhase(s, ev.acceptScript)
      case Halted(why) => Stopped(why)
      case Running(s1) => Next(s1, disconnected)
    else if id in disconnected then Next(s, disconnected)
    else if id !in s.connections then Stopped(MissingConnection)
    else if !ev.readable && !ev.writable then Stopped(NoReadiness)
    else
      match ReadPhase(s, ev)
      case Stops(why) => Stopped(why)
      case Leaves(s1) => Next(s1, disconnected + {id})
      case Stays(s1) =>
        if id !in s1.connections then Stopped(MissingConnection)
        else
          match WritePhase(s1, ev)
          case Stops(why) => Stopped(why)
          case Leaves(s2) => Next(s2, disconnected + {id})
          case Stays(s2) => Next(s2, disconnected)
  }

  ghost function HandleBatch(s: Tcp, events: seq<PollEvent>): Handled {
    if events == [] then Next(s, {})
    else
      match HandleBatch(s, events[..|events| - 1])
      case Stopped(why) => Stopped(why)
      case Next(s1, disconnected) => HandleToken(s1, disconnected, events[|events| - 1])
  }

  /** One poll round of `fetch_events`. */
  ghost function PollRound(s: Tcp, batch: seq<PollEvent>): Outcome {
    if s.connections == map[] && s.listeners == {} then Running(Emit(s, Inactive))
    else
      match HandleBatch(s, Polled(batch, s.registered.Keys))
      case Stopped(why) => Halted(why)
      case Next(s1, _) => Running(s1)
  }

  // ---------------------------------------------------------------------------
  // Runs
  // ---------------------------------------------------------------------------

  datatype Op = Call(request: Request) | Poll(batch: seq<PollEvent>)

  ghost function Step(s: Tcp, op: Op): Outcome {
    match op
    case Call(request) => Apply(s, request)
    case Poll(batch) => PollRound(s, batch)
  }

  ghost function Exec(s: Tcp, ops: seq<Op>): Outcome {
    if ops == [] then Running(s)
    else
      match Exec(s, ops[..|ops| - 1])
      case Halted(why) => Halted(why)
      case Running(s1) => Step(s1, ops[|ops| - 1])
  }

  lemma ExecNothing(s: Tcp)
    ensures Exec(s, []) == Running(s)
  {
  }

  lemma ExecSnoc(s: Tcp, ops: seq<Op>, op: Op)
    requires Exec(s, ops).Running?
    ensures Exec(s, ops + [op]) == Step(Exec(s, ops).s, op)
  {
    assert (ops + [op])[..|ops|] == ops;
  }

  lemma ExecOne(s: Tcp, op: Op)
    ensures Exec(s, [op]) == Step(s, op)
  {
    ExecSnoc(s, [], op);
    assert [] + [op] == [op];
  }

  /** A halt is final. */
  lemma {:induction false} ExecStops(s: Tcp, ops: seq<Op>, k: nat)
    requires k <= |ops| && Exec(s, ops[..k]).Halted?
    ensures Exec(s, ops) == Exec(s, ops[..k])
    decreases |ops|
  {
    hide Step;
    if k == |ops| {
      assert ops[..k] == ops;
    } else {
      assert ops[..|ops| - 1][..k] == ops[..k];
      ExecStops(s, ops[..|ops| - 1], k);
    }
  }

  /** Runs compose. */
  lemma {:induction false} ExecConcat(s: Tcp, a: seq<Op>, b: seq<Op>)
    ensures Exec(s, a + b) == match Exec(s, a)
                              case Halted(why) => Halted(why)
                              case Running(s1) => Exec(s1, b)
  {
    hide Step;
    if b == [] {
      assert a + b == a;
    } else {
      assert (a + b)[..|a + b| - 1] == a + b[..|b| - 1];
      ExecConcat(s, a, b[..|b| - 1]);
    }
  }
}
