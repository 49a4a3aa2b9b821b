/**
 The TLS transport of src/transport/tls.rs as a state machine. The TLS library is an oracle: each pass of a
 read or write loop carries its answers and the socket's. `hist` and `out` record what has happened; nothing in
 the machine depends on them.
 */
module TlsModel {
  import opened Bytes
  import opened TransportTypes
  import opened Ids

  const MAX_SPURIOUS_WAKEUPS: nat := 10

  datatype ConnectionStatus = NotConnected | TcpConnected | TlsConnected

  datatype Connection = Connection(status: ConnectionStatus, interest: Interest, sendBuf: bytes)

  /** The events of an id's earlier lives, and its current life: its events and the buffers queued; and, as the TLS
      library knows them, the plaintext it took in this life and the plaintext it handed over in all of them. */
  datatype History = History(
    outgoing: bool,
    before: seq<TransportEvent>,
    events: seq<TransportEvent>,
    queued: seq<bytes>,
    plaintext: bytes,
    received: bytes)

  datatype Tls = Tls(
    connections: map<nat, Connection>,
    listeners: set<nat>,
    nextId: ConnectionId,
    registered: map<nat, Interest>,
    spurious: nat,
    maxRead: nat,
    hist: map<nat, History>,
    out: seq<TransportEvent>)

  datatype Halt =
    | MissingConnection
    | NoReadiness
    | ReadBeforeConnected
    | DataBeforeHandshake
    | TooManySpurious
    | AcceptFailed
    | IdsExhausted

  datatype Outcome = Running(s: Tls) | Halted(why: Halt)

  // ---------------------------------------------------------------------------
  // The environment
  // ---------------------------------------------------------------------------

  datatype SocketRead = Encrypted | EndOfStream | Backpressure | ReadWouldBlock | ReadError

  datatype PlainRead = Plain(data: bytes) | PlainWouldBlock | PlainError

  /** One pass of the read loop: the socket, whether the packets are well-formed, and the plaintext reader. */
  datatype ReadPass = ReadPass(socket: SocketRead, packetsOk: bool, reader: PlainRead)

  datatype PlainWrite = Took(count: nat) | PlainFull | WriterError

  datatype SocketWrite = WroteEncrypted | NothingToWrite | WriteWouldBlock | BrokenPipe | WriteError

  /** One pass of the write loop: the plaintext writer, if there is plaintext to write, and the socket. */
  datatype WritePass = WritePass(writer: PlainWrite, socket: SocketWrite)

  /** A polled token, with everything the socket and the TLS library answer while it is handled. */
  datatype PollEvent = PollEvent(
    token: nat,
    readable: bool,
    writable: bool,
    acceptScript: seq<AcceptResult>,
    readScript: seq<ReadPass>,
    handshakingAfterRead: bool,
    wantsWriteAfterRead: bool,
    socketError: bool,
    writeScript: seq<WritePass>,
    handshakingAfterWrite: bool,
    wantsWriteAfterWrite: bool)

  // What the TLS library does when it gives such answers, whatever the transport makes of them.

  /** What the library puts into a slice of `size` bytes. */
  function Filled(pass: ReadPass, size: nat): bytes {
    if pass.reader.Plain? then pass.reader.data[..Min(|pass.reader.data|, size)] else []
  }

  /** The socket has ended, or its packets are malformed. */
  predicate CutOff(pass: ReadPass) {
    pass.socket.EndOfStream? || pass.socket.ReadError? || !pass.packetsOk
  }

  /** The slices the library fills before it has nothing more, or the connection is cut. */
  function Fillings(script: seq<ReadPass>, size: nat): seq<bytes> {
    if script == [] || CutOff(script[0]) || Filled(script[0], size) == [] then []
    else [Filled(script[0], size)] + Fillings(script[1..], size)
  }

  /** All plaintext the library hands over. */
  function Given(script: seq<ReadPass>, size: nat): bytes {
    Flatten(Fillings(script, size))
  }

  /** After that the connection is lost. */
  predicate Ended(script: seq<ReadPass>, size: nat) {
    var k := |Fillings(script, size)|;
    k < |script| && (CutOff(script[k]) || script[k].reader.PlainError?)
  }

  /** Plaintext has come out, or at least encrypted bytes have come in. */
  predicate ReadMoves(script: seq<ReadPass>, size: nat) {
    Given(script, size) != [] || (script != [] && script[0].socket.Encrypted?)
  }

  /** What the library takes of a slice of plaintext offered to it. */
  function Accepted(pass: WritePass, slice: bytes): bytes {
    if pass.writer.Took? then slice[..Min(pass.writer.count, |slice|)] else []
  }

  predicate WriterFails(pass: WritePass, pending: bytes) {
    pending != [] && pass.writer.WriterError?
  }

  /** The parts the library takes, each from the front of what is left, while the socket takes encrypted bytes. */
  function Takings(script: seq<WritePass>, pending: bytes): seq<bytes>
    decreases |script|
  {
    if script == [] || WriterFails(script[0], pending) then []
    else if !script[0].socket.WroteEncrypted? then [Accepted(script[0], pending)]
    else [Accepted(script[0], pending)] + Takings(script[1..], pending[|Accepted(script[0], pending)|..])
  }

  /** All plaintext the library takes. */
  function Taken(script: seq<WritePass>, pending: bytes): bytes {
    Flatten(Takings(script, pending))
  }

  /** The library refuses plaintext, or the socket fails. */
  predicate Broken(script: seq<WritePass>, pending: bytes)
    decreases |script|
  {
    script != []
    && (|| WriterFails(script[0], pending)
        || script[0].socket.WriteError?
        || (script[0].socket.WroteEncrypted? && Broken(script[1..], pending[|Accepted(script[0], pending)|..])))
  }

  /** Plaintext has gone in, or encrypted bytes have gone out. */
  predicate WriteMoves(script: seq<WritePass>, pending: bytes) {
    Taken(script, pending) != []
    || (script != [] && !WriterFails(script[0], pending) && script[0].socket.WroteEncrypted?)
  }

  // What the loops of the transport make of them.

  datatype ReadIo = ReadIo(data: bytes, disconnect: bool, progress: bool)

  /** What the read loop collects. A script that runs out would block on both sides. */
  function ReadSummary(script: seq<ReadPass>, maxRead: nat): ReadIo {
    if script == [] then ReadIo([], false, false)
    else
      var pass := script[0];
      if pass.socket.EndOfStream? || pass.socket.ReadError? then ReadIo([], true, false)
      else if !pass.packetsOk then ReadIo([], true, pass.socket.Encrypted?)
      else
        match pass.reader
        case PlainError => ReadIo([], true, pass.socket.Encrypted?)
        case PlainWouldBlock => ReadIo([], false, pass.socket.Encrypted?)
        case Plain(data) =>
          var got := data[..Min(|data|, maxRead)];
          if got == [] then ReadIo([], false, pass.socket.Encrypted?)
          else
            var rest := ReadSummary(script[1..], maxRead);
            ReadIo(got + rest.data, rest.disconnect, true)
  }

  datatype WriteIo = WriteIo(taken: nat, failed: bool, progress: bool)

  /** What the write loop hands to the TLS library out of `size` pending bytes; none of it before the
      handshake is complete. A script that runs out has nothing more to write. */
  function WriteSummary(script: seq<WritePass>, size: nat, tlsConnected: bool): (io: WriteIo)
    ensures io.taken <= size && (!tlsConnected ==> io.taken == 0)
  {
    if script == [] then WriteIo(0, false, false)
    else
      var pass := script[0];
      var offers := size > 0 && tlsConnected;
      if offers && pass.writer.WriterError? then WriteIo(0, true, false)
      else
        var count := if offers && pass.writer.Took? then Min(pass.writer.count, size) else 0;
        match pass.socket
        case WriteError => WriteIo(count, true, count > 0)
        case WroteEncrypted =>
          var rest := WriteSummary(script[1..], size - count, tlsConnected);
          WriteIo(count + rest.taken, rest.failed, true)
        case _ => WriteIo(count, false, count > 0)
  }

  function Polled(batch: seq<PollEvent>, tokens: set<nat>): (r: seq<PollEvent>)
    ensures forall i :: 0 <= i < |r| ==> r[i].token in tokens
  {
    if batch == [] then []
    else
      var last := batch[|batch| - 1];
      Polled(batch[..|batch| - 1], tokens) + (if last.token in tokens then [last] else [])
  }

  // ---------------------------------------------------------------------------
  // Bookkeeping
  // ---------------------------------------------------------------------------

  function Init(maxRead: nat): Tls {
    Tls(map[], {}, ID_RANGE_START, map[WAKE_ID := READABLE], 0, maxRead, map[], [])
  }

  function Live(s: Tls): set<nat> {
    s.connections.Keys + s.listeners
  }

  /** Ids are left for `n` more connections or listeners and the one prepared after them. */
  predicate Room(s: Tls, n: nat) {
    |s.connections| + |s.listeners| + n < ID_COUNT
  }

  lemma RoomLeavesFree(s: Tls)
    requires Room(s, 1)
    ensures HasFree(Live(s) + {s.nextId})
  {
    FewerUsedThanRangeLeavesFree(Live(s) + {s.nextId});
  }

  ghost function NextAfterBirth(s: Tls): (next: ConnectionId)
    requires Room(s, 1)
    ensures next !in Live(s) && next != s.nextId
  {
    RoomLeavesFree(s);
    NextFree(Live(s) + {s.nextId}, s.nextId)
  }

  function Past(s: Tls, id: nat): seq<TransportEvent> {
    if id in s.hist then s.hist[id].before + s.hist[id].events else []
  }

  /** All plaintext handed over under an id, in all its lives. */
  function HandedOver(s: Tls, id: nat): bytes {
    if id in s.hist then s.hist[id].received else []
  }

  /** A socket that is still connecting, or one that was accepted. */
  function NewConnection(outgoing: bool): Connection {
    if outgoing then Connection(NotConnected, WRITABLE, []) else Connection(TcpConnected, READABLE, [])
  }

  ghost function AddConnection(s: Tls, outgoing: bool): Tls
    requires Room(s, 1)
  {
    var c := NewConnection(outgoing);
    s.(connections := s.connections[s.nextId := c],
       registered := s.registered[s.nextId := c.interest],
       hist := s.hist[s.nextId := History(outgoing, Past(s, s.nextId), [], [], [], HandedOver(s, s.nextId))],
       nextId := NextAfterBirth(s))
  }

  ghost function AddListener(s: Tls): Tls
    requires Room(s, 1)
  {
    s.(listeners := s.listeners + {s.nextId},
       registered := s.registered[s.nextId := READABLE],
       nextId := NextAfterBirth(s))
  }

  /** `n` accepted streams become connections, none of them announced. */
  ghost function AcceptMany(s: Tls, n: nat): (r: Tls)
    requires Room(s, n)
    ensures |r.connections| <= |s.connections| + n && r.listeners == s.listeners
  {
    if n == 0 then s else AddConnection(AcceptMany(s, n - 1), false)
  }

  function Put(s: Tls, id: nat, conn: Connection): Tls {
    s.(connections := s.connections[id := conn], registered := s.registered[id := conn.interest])
  }

  function Drop(s: Tls, id: nat): Tls {
    s.(connections := s.connections - {id}, registered := s.registered - {id})
  }

  function RecordTaken(s: Tls, id: nat, data: bytes): Tls {
    if id in s.hist then s.(hist := s.hist[id := s.hist[id].(plaintext := s.hist[id].plaintext + data)]) else s
  }

  function RecordReceived(s: Tls, id: nat, data: bytes): Tls {
    if id in s.hist then s.(hist := s.hist[id := s.hist[id].(received := s.hist[id].received + data)]) else s
  }

  function Emit(s: Tls, e: TransportEvent): Tls {
    var s := s.(out := s.out + [e]);
    if !e.Inactive? && e.id in s.hist then
      s.(hist := s.hist[e.id := s.hist[e.id].(events := s.hist[e.id].events + [e])])
    else s
  }

  function EmitData(s: Tls, id: nat, data: bytes): Tls {
    if data == [] then s else Emit(s, Data(id, data))
  }

  function Track(s: Tls, isSpurious: bool): Outcome {
    if !isSpurious then Running(s.(spurious := 0))
    else if s.spurious + 1 > MAX_SPURIOUS_WAKEUPS then Halted(TooManySpurious)
    else Running(s.(spurious := s.spurious + 1))
  }

  /** `queue_data`: WRITABLE is added to whatever the interest is. */
  function QueueData(s: Tls, id: nat, data: bytes): Tls {
    if id !in s.connections then s
    else
      var c := s.connections[id];
      var s1 := Put(s, id, Connection(c.status, Interest(c.interest.readable, true), c.sendBuf + data));
      if id in s.hist then s1.(hist := s.hist[id := s.hist[id].(queued := s.hist[id].queued + [data])]) else s1
  }

  // ---------------------------------------------------------------------------
  // Handling one polled token
  // ---------------------------------------------------------------------------

  /** A phase leaves the connection there, takes it away with an event, takes it away without one, or halts. */
  datatype Phase = Stays(s: Tls) | Leaves(s: Tls) | Vanishes(s: Tls) | Stops(why: Halt)

  /** The common end of both loops for a connection that survives: the interest is recomputed, and a completed
      handshake makes the connection TlsConnected. */
  function Settle(c: Connection, handshaking: bool, wantsWrite: bool): Connection
    requires !c.status.NotConnected?
  {
    if c.status.TcpConnected? && handshaking then c.(interest := Interest(true, wantsWrite))
    else Connection(TlsConnected, Interest(true, wantsWrite || c.sendBuf != []), c.sendBuf)
  }

  ghost function AcceptPhase(s: Tls, script: seq<AcceptResult>): Outcome {
    match AcceptSummary(script)
    case None => Halted(AcceptFailed)
    case Some(n) => if Room(s, n) then Track(AcceptMany(s, n), n == 0) else Halted(IdsExhausted)
  }

  function ReadPhase(s: Tls, ev: PollEvent): Phase
    requires ev.token in s.connections
  {
    var (id, c) := (ev.token, s.connections[ev.token]);
    if !ev.readable then Stays(s)
    else if c.status.NotConnected? then Stops(ReadBeforeConnected)
    else
      var io := ReadSummary(ev.readScript, s.maxRead);
      var given := Given(ev.readScript, s.maxRead);
      if io.disconnect && c.status.TcpConnected? then
        if io.data != [] then Stops(DataBeforeHandshake) else Vanishes(Drop(s, id))
      else if io.disconnect then
        Leaves(Emit(EmitData(RecordReceived(Drop(s, id), id, given), id, io.data), Disconnected(id)))
      else if c.status.TcpConnected? && ev.handshakingAfterRead && io.data != [] then Stops(DataBeforeHandshake)
      else
        var c' := Settle(c, ev.handshakingAfterRead, ev.wantsWriteAfterRead);
        match Track(Put(s, id, c'), !io.progress)
        case Halted(why) => Stops(why)
        case Running(s1) =>
          var s2 := EmitData(RecordReceived(s1, id, given), id, io.data);
          Stays(if c'.status != c.status then Emit(s2, Connected(id)) else s2)
  }

  /** The plaintext offered to the TLS library: none before the handshake is complete. */
  function Offered(c: Connection): bytes {
    if c.status.TlsConnected? then c.sendBuf else []
  }

  function WritePhase(s: Tls, ev: PollEvent): Phase
    requires ev.token in s.connections
  {
    var (id, c) := (ev.token, s.connections[ev.token]);
    if !ev.writable then Stays(s)
    else if c.status.NotConnected? && ev.socketError then Leaves(Emit(Drop(s, id), ConnectionFailed(id)))
    else
      var status := if c.status.NotConnected? then TcpConnected else c.status;
      var io := WriteSummary(ev.writeScript, |c.sendBuf|, status.TlsConnected?);
      var s1 := RecordTaken(s, id, Taken(ev.writeScript, Offered(c)));
      if io.failed then
        Leaves(Emit(Drop(s1, id), if status.TcpConnected? then ConnectionFailed(id) else Disconnected(id)))
      else
        var c' := Settle(Connection(status, c.interest, c.sendBuf[io.taken..]), ev.handshakingAfterWrite,
                         ev.wantsWriteAfterWrite);
        match Track(Put(s1, id, c'), !io.progress && status == c.status)
        case Halted(why) => Stops(why)
        case Running(s2) => Stays(if c'.status != status then Emit(s2, Connected(id)) else s2)
  }

  /** `disconnected` is the source's `disconnected_ids`; `vanished` are the ids whose connection was removed in
      this batch without being entered there. */
  datatype Handled = Next(s: Tls, disconnected: set<nat>, vanished: set<nat>) | Stopped(why: Halt)

  ghost function HandleToken(s: Tls, disconnected: set<nat>, vanished: set<nat>, ev: PollEvent): Handled {
    var id := ev.token;
    if id == WAKE_ID then Next(s, disconnected, vanished)
    else if id in s.listeners then
      match AcceptPhase(s, ev.acceptScript)
      case Halted(why) => Stopped(why)
      case Running(s1) => Next(s1, disconnected, vanished - s1.connections.Keys)
    else if id in disconnected then Next(s, disconnected, vanished)
    else if id !in s.connections then Stopped(MissingConnection)
    else if !ev.readable && !ev.writable then Stopped(NoReadiness)
    else
      match ReadPhase(s, ev)
      case Stops(why) => Stopped(why)
      case Leaves(s1) => Next(s1, disconnected + {id}, vanished)
      case Vanishes(s1) => if ev.writable then Stopped(MissingConnection) else Next(s1, disconnected, vanished + {id})
      case Stays(s1) =>
        if id !in s1.connections then Stopped(MissingConnection)
        else
          match WritePhase(s1, ev)
          case Stops(why) => Stopped(why)
          case Leaves(s2) => Next(s2, disconnected + {id}, vanished)
          case Vanishes(s2) => Next(s2, disconnected, vanished + {id})
          case Stays(s2) => Next(s2, disconnected, vanished)
  }

  ghost function HandleBatch(s: Tls, events: seq<PollEvent>): Handled {
    if events == [] then Next(s, {}, {})
    else
      match HandleBatch(s, events[..|events| - 1])
      case Stopped(why) => Stopped(why)
      case Next(s1, disconnected, vanished) =>
        HandleToken(s1, disconnected, vanished, events[|events| - 1])
  }

  // ---------------------------------------------------------------------------
  // Runs
  // ---------------------------------------------------------------------------

  /** `Connect(ok)` and `Listen(ok)` carry whether a socket is granted; a send is one `Queue` per receiver. */
  datatype Op =
    | Connect(ok: bool)
    | Listen(ok: bool)
    | Queue(id: nat, data: bytes)
    | Close(id: nat)
    | Poll(batch: seq<PollEvent>)

  ghost function Step(s: Tls, op: Op): Outcome {
    match op
    case Connect(ok) =>
      if !ok then Running(s) else if Room(s, 1) then Running(AddConnection(s, true)) else Halted(IdsExhausted)
    case Listen(ok) =>
      if !ok then Running(s) else if Room(s, 1) then Running(AddListener(s)) else Halted(IdsExhausted)
    case Queue(id, data) => Running(QueueData(s, id, data))
    case Close(id) => Running(if id in s.connections then Drop(s, id) else s)
    case Poll(batch) =>
      if s.connections == map[] && s.listeners == {} then Running(Emit(s, Inactive))
      else
        match HandleBatch(s, Polled(batch, s.registered.Keys))
        case Stopped(why) => Halted(why)
        case Next(s1, _, _) => Running(s1)
  }

  ghost function Exec(s: Tls, ops: seq<Op>): Outcome {
    if ops == [] then Running(s)
    else
      match Exec(s, ops[..|ops| - 1])
      case Halted(why) => Halted(why)
      case Running(s1) => Step(s1, ops[|ops| - 1])
  }
}
