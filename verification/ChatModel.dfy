/**
 The chat of examples/chat as a replicated map: the server of server_single.rs, one FIFO of messages per
 connection, and clients of client.rs that replay their FIFO.
 */
module ChatModel {
  import opened Bytes

  /** A Rust string; its length is counted in bytes. */
  type Name = bytes

  const MIN_NAME: nat := 2
  const MAX_NAME: nat := 50

  datatype ClientMsg = CLogin(name: Name) | CName(name: Name) | CSay(text: bytes) | CRemove(id: nat) | CUnknown

  datatype Reason = LoginNameTooShort | LoginNameTooLong | NameTooShort | NameTooLong | NotFound(id: nat)

  datatype ServerMsg =
    | SInit(id: nat, logins: seq<(nat, Name)>)
    | SLogin(id: nat, name: Name)
    | SLogoff(id: nat)
    | SSay(id: nat, text: bytes)
    | SName(id: nat, name: Name)
    | SRemove(id: nat)
    | SError(reason: Reason)

  datatype Event = Connected(id: nat) | Disconnected(id: nat) | Message(id: nat, msg: ClientMsg)

  // ---------------------------------------------------------------------------
  // The client: a replica of the participant map
  // ---------------------------------------------------------------------------

  function InsertAll(m: map<nat, Name>, logins: seq<(nat, Name)>): map<nat, Name> {
    if logins == [] then m
    else InsertAll(m, logins[..|logins| - 1])[logins[|logins| - 1].0 := logins[|logins| - 1].1]
  }

  function ApplyMsg(m: map<nat, Name>, msg: ServerMsg): map<nat, Name> {
    match msg
    case SInit(_, logins) => InsertAll(m, logins)
    case SLogin(id, name) => m[id := name]
    case SLogoff(id) => m - {id}
    case SRemove(id) => m - {id}
    case SName(id, name) => if id in m then m[id := name] else m
    case SSay(_, _) => m
    case SError(_) => m
  }

  /** What a client knows after the messages of `inbox`. */
  function Replay(inbox: seq<ServerMsg>): map<nat, Name> {
    if inbox == [] then map[] else ApplyMsg(Replay(inbox[..|inbox| - 1]), inbox[|inbox| - 1])
  }

  lemma ReplaySnoc(inbox: seq<ServerMsg>, msg: ServerMsg)
    ensures Replay(inbox + [msg]) == ApplyMsg(Replay(inbox), msg)
  {
    assert (inbox + [msg])[..|inbox|] == inbox;
  }

  /** `logins` lists the entries of `m`, in any order. */
  ghost predicate Lists(logins: seq<(nat, Name)>, m: map<nat, Name>) {
    && (forall i :: 0 <= i < |logins| ==> logins[i].0 in m && m[logins[i].0] == logins[i].1)
    && (forall id :: id in m ==> exists i :: 0 <= i < |logins| && logins[i].0 == id)
  }

  // ---------------------------------------------------------------------------
  // The server
  // ---------------------------------------------------------------------------

  /** `open` are the connections the messenger still has, `seen` all it ever had, and `inbox` what has been
      sent to each. */
  datatype Chat = Chat(
    clients: set<nat>,
    participants: map<nat, Name>,
    open: set<nat>,
    seen: set<nat>,
    inbox: map<nat, seq<ServerMsg>>)

  const START := Chat({}, map[], {}, {}, map[])

  function Inbox(s: Chat, id: nat): seq<ServerMsg> {
    if id in s.inbox then s.inbox[id] else []
  }

  predicate GoodName(name: Name) {
    MIN_NAME <= |name| <= MAX_NAME
  }

  function Copies(msg: ServerMsg, n: nat): seq<ServerMsg> {
    if n == 0 then [] else Copies(msg, n - 1) + [msg]
  }

  /** Send `msg` once per occurrence in `targets`; closed connections drop it. */
  function Tell(s: Chat, targets: multiset<nat>, msg: ServerMsg): Chat {
    s.(inbox := map id | id in s.inbox.Keys + (set x | x in s.open && x in targets) ::
                  Inbox(s, id) + (if id in s.open then Copies(msg, targets[id]) else []))
  }

  function TellParticipants(s: Chat, msg: ServerMsg): Chat {
    Tell(s, multiset(s.participants.Keys), msg)
  }

  function RemoveClient(s: Chat, id: nat): Chat {
    s.(clients := s.clients - {id}, participants := s.participants - {id})
  }

  function Close(s: Chat, id: nat): Chat {
    s.(open := s.open - {id})
  }

  function HandleMessage(s: Chat, id: nat, msg: ClientMsg, logins: seq<(nat, Name)>): Chat {
    if id !in s.participants then
      match msg
      case CLogin(name) =>
        if |name| < MIN_NAME then Close(RemoveClient(Tell(s, multiset{id}, SError(LoginNameTooShort)), id), id)
        else if |name| > MAX_NAME then Close(RemoveClient(Tell(s, multiset{id}, SError(LoginNameTooLong)), id), id)
        else
          var s1 := s.(participants := s.participants[id := name]);
          TellParticipants(Tell(s1, multiset{id}, SInit(id, logins)), SLogin(id, name))
      case _ => Close(RemoveClient(s, id), id)
    else
      match msg
      case CSay(text) => TellParticipants(s, SSay(id, text))
      case CName(name) =>
        if |name| < MIN_NAME then Tell(s, multiset{id}, SError(NameTooShort))
        else if |name| > MAX_NAME then Tell(s, multiset{id}, SError(NameTooLong))
        else TellParticipants(s.(participants := s.participants[id := name]), SName(id, name))
      case CRemove(other) =>
        if other in s.participants then TellParticipants(Close(RemoveClient(s, other), other), SRemove(other))
        else Tell(s, multiset{id}, SError(NotFound(other)))
      case _ => TellParticipants(Close(RemoveClient(s, id), id), SRemove(id))
  }

  /** Handle one event. `logins` is the order in which the participant map is listed after a login. */
  function Handle(s: Chat, event: Event, logins: seq<(nat, Name)>): Chat {
    match event
    case Connected(id) => s.(clients := s.clients + {id})
    case Disconnected(id) =>
      if id in s.participants then TellParticipants(RemoveClient(s, id), SLogoff(id)) else RemoveClient(s, id)
    case Message(id, msg) => HandleMessage(s, id, msg, logins)
  }

  // ---------------------------------------------------------------------------
  // Runs
  // ---------------------------------------------------------------------------

  /** The messenger opens a connection under a new id, loses one, or hands out an event. Events are handed out
      in batches, so one may arrive long after its connection is gone; but Disconnected is only reported for a
      connection that is gone. */
  datatype Step = Opens(id: nat) | Loses(id: nat) | Hands(event: Event, logins: seq<(nat, Name)>)

  /** An accepted login is greeted with a listing of the participants, the newcomer included. */
  ghost predicate ListsNewcomer(s: Chat, event: Event, logins: seq<(nat, Name)>) {
    event.Message? && event.msg.CLogin? && event.id !in s.participants && GoodName(event.msg.name) ==>
      Lists(logins, s.participants[event.id := event.msg.name])
  }

  ghost predicate Allowed(s: Chat, step: Step) {
    match step
    case Opens(id) => id !in s.seen
    case Loses(id) => true
    case Hands(event, logins) =>
      && (event.Disconnected? ==> event.id !in s.open)
      && event.id in s.seen
      && ListsNewcomer(s, event, logins)
  }

  function Next(s: Chat, step: Step): Chat {
    match step
    case Opens(id) => s.(open := s.open + {id}, seen := s.seen + {id})
    case Loses(id) => Close(s, id)
    case Hands(event, logins) => Handle(s, event, logins)
  }

  /** The state after `steps`. */
  function After(steps: seq<Step>): Chat {
    if steps == [] then START else Next(After(steps[..|steps| - 1]), steps[|steps| - 1])
  }

  ghost predicate AllowedRun(steps: seq<Step>) {
    steps == []
    || (AllowedRun(steps[..|steps| - 1]) && Allowed(After(steps[..|steps| - 1]), steps[|steps| - 1]))
  }

  // ---------------------------------------------------------------------------
  // Replication
  // ---------------------------------------------------------------------------

  /** Every participant whose connection is open has been sent exactly the participant map; every other open
      connection has been sent no participant at all. */
  ghost predicate Replicated(s: Chat) {
    forall id :: id in s.open ==>
      Replay(Inbox(s, id)) == if id in s.participants then s.participants else map[]
  }

  predicate NamesOk(s: Chat) {
    forall id :: id in s.participants ==> MIN_NAME <= |s.participants[id]| <= MAX_NAME
  }

  predicate Bounded(s: Chat) {
    s.open <= s.seen && s.participants.Keys <= s.seen && s.inbox.Keys <= s.seen
  }

  lemma {:induction false} InsertAllLists(m: map<nat, Name>, logins: seq<(nat, Name)>, target: map<nat, Name>, id: nat)
    requires forall i :: 0 <= i < |logins| ==> logins[i].0 in target && target[logins[i].0] == logins[i].1
    ensures var r := InsertAll(m, logins);
            if exists i :: 0 <= i < |logins| && logins[i].0 == id then id in r && id in target && r[id] == target[id]
            else (id in r <==> id in m) && (id in m ==> r[id] == m[id])
  {
    if logins != [] {
      InsertAllLists(m, logins[..|logins| - 1], target, id);
      assert forall i :: 0 <= i < |logins| - 1 ==> logins[..|logins| - 1][i] == logins[i];
      assert logins[|logins| - 1].0 in target;
    }
  }

  /** A client that starts from nothing knows the listed map after SInit. */
  lemma InitCopies(logins: seq<(nat, Name)>, m: map<nat, Name>)
    requires Lists(logins, m)
    ensures InsertAll(map[], logins) == m
  {
    forall id
      ensures id in InsertAll(map[], logins) <==> id in m
      ensures id in m ==> InsertAll(map[], logins)[id] == m[id]
    {
      InsertAllLists(map[], logins, m, id);
    }
  }

  /** The FIFO of one connection after a send. */
  lemma ToldAt(s: Chat, targets: multiset<nat>, msg: ServerMsg, id: nat)
    ensures var inbox := Tell(s, targets, msg).inbox;
            && (id in inbox <==> id in s.inbox || (id in s.open && id in targets))
            && (id in inbox ==> inbox[id] == Inbox(s, id) + (if id in s.open then Copies(msg, targets[id]) else []))
  {
  }

  lemma TellNobody(s: Chat, msg: ServerMsg)
    ensures Tell(s, multiset{}, msg) == s
  {
    var s' := Tell(s, multiset{}, msg);
    forall id
      ensures id in s'.inbox <==> id in s.inbox
      ensures id in s.inbox ==> s'.inbox[id] == s.inbox[id]
    {
      ToldAt(s, multiset{}, msg, id);
      assert Inbox(s, id) + [] == Inbox(s, id);
    }
    assert s'.inbox == s.inbox;
  }

  lemma TellOnce(s: Chat, id: nat, msg: ServerMsg)
    ensures Tell(s, multiset{id}, msg)
            == if id in s.open then s.(inbox := s.inbox[id := Inbox(s, id) + [msg]]) else s
  {
    var s' := Tell(s, multiset{id}, msg);
    var expected := if id in s.open then s.inbox[id := Inbox(s, id) + [msg]] else s.inbox;
    assert Copies(msg, 1) == [] + [msg];
    forall other
      ensures other in s'.inbox <==> other in expected
      ensures other in expected ==> s'.inbox[other] == expected[other]
    {
      ToldAt(s, multiset{id}, msg, other);
      assert Inbox(s, other) + [] == Inbox(s, other);
    }
    assert s'.inbox == expected;
  }

  lemma TellOneMore(s: Chat, targets: multiset<nat>, id: nat, msg: ServerMsg)
    ensures Tell(Tell(s, targets, msg), multiset{id}, msg) == Tell(s, targets + multiset{id}, msg)
  {
    var (s1, s2) := (Tell(s, targets, msg), Tell(s, targets + multiset{id}, msg));
    TellKeeps(s, targets, msg);
    TellKeeps(s, targets + multiset{id}, msg);
    TellOnce(s1, id, msg);
    hide Tell;
    var expected := if id in s.open then s1.inbox[id := Inbox(s1, id) + [msg]] else s1.inbox;
    forall other
      ensures other in s2.inbox <==> other in expected
      ensures other in expected ==> s2.inbox[other] == expected[other]
    {
      ToldAt(s, targets, msg, other);
      ToldAt(s, targets + multiset{id}, msg, other);
      assert Copies(msg, targets[id] + 1) == Copies(msg, targets[id]) + [msg];
      var before := Inbox(s, id);
      assert before + (Copies(msg, targets[id]) + [msg]) == before + Copies(msg, targets[id]) + [msg];
    }
    assert s2.inbox == expected;
  }

  lemma TellKeeps(s: Chat, targets: multiset<nat>, msg: ServerMsg)
    ensures Tell(s, targets, msg) == s.(inbox := Tell(s, targets, msg).inbox)
  {
  }

  lemma TellOne(s: Chat, id: nat, msg: ServerMsg, other: nat)
    ensures Inbox(Tell(s, multiset{id}, msg), other)
            == Inbox(s, other) + (if other == id && id in s.open then [msg] else [])
  {
    assert Copies(msg, 1) == [] + [msg];
  }

  lemma TellParticipantsAll(s: Chat, msg: ServerMsg, other: nat)
    ensures Inbox(TellParticipants(s, msg), other)
            == Inbox(s, other) + (if other in s.participants && other in s.open then [msg] else [])
  {
    assert Copies(msg, 1) == [] + [msg];
  }

  /** A change of the participant map that its notice carries to every replica. */
  lemma NoticeReplicates(s: Chat, s1: Chat, msg: ServerMsg)
    requires Replicated(s) && s1.inbox == s.inbox && s1.open <= s.open
    requires forall id :: id in s1.open ==> (id in s1.participants <==> id in s.participants)
    requires ApplyMsg(s.participants, msg) == s1.participants
    ensures Replicated(TellParticipants(s1, msg))
  {
    var s' := TellParticipants(s1, msg);
    assert forall id :: Inbox(s1, id) == Inbox(s, id);
    TellKeeps(s1, multiset(s1.participants.Keys), msg);
    hide TellParticipants, Tell, Inbox, ApplyMsg, Replay;
    forall id | id in s'.open
      ensures Replay(Inbox(s', id)) == if id in s'.participants then s'.participants else map[]
    {
      TellParticipantsAll(s1, msg, id);
      ReplaySnoc(Inbox(s, id), msg);
      assert Inbox(s, id) + [] == Inbox(s, id);
    }
  }

  /** A reply to one connection that changes no replica, after which that connection may be closed. */
  lemma ReplyReplicates(s: Chat, id: nat, reason: Reason, s': Chat)
    requires Replicated(s) && s'.inbox == Tell(s, multiset{id}, SError(reason)).inbox && s'.open <= s.open
    requires s'.participants == s.participants
    ensures Replicated(s')
  {
    forall other | other in s'.open
      ensures Replay(Inbox(s', other)) == if other in s'.participants then s'.participants else map[]
    {
      assert Inbox(s', other) == Inbox(Tell(s, multiset{id}, SError(reason)), other);
      TellOne(s, id, SError(reason), other);
      ReplaySnoc(Inbox(s, other), SError(reason));
      assert Inbox(s, other) + [] == Inbox(s, other);
    }
  }

  /** The state after an accepted login. */
  function LoggedIn(s: Chat, id: nat, name: Name, logins: seq<(nat, Name)>): Chat {
    var s1 := s.(participants := s.participants[id := name]);
    TellParticipants(Tell(s1, multiset{id}, SInit(id, logins)), SLogin(id, name))
  }

  lemma LoginTells(s: Chat, id: nat, name: Name, logins: seq<(nat, Name)>, other: nat)
    ensures Inbox(LoggedIn(s, id, name, logins), other)
            == Inbox(s, other) + (if other == id && id in s.open then [SInit(id, logins)] else [])
               + (if (other == id || other in s.participants) && other in s.open then [SLogin(id, name)] else [])
  {
    var s1 := s.(participants := s.participants[id := name]);
    assert Inbox(s1, other) == Inbox(s, other);
    TellOne(s1, id, SInit(id, logins), other);
    TellKeeps(s1, multiset{id}, SInit(id, logins));
    hide Tell;
    TellParticipantsAll(Tell(s1, multiset{id}, SInit(id, logins)), SLogin(id, name), other);
  }

  /** What the newcomer knows after its greeting and the login notice. */
  lemma NewcomerKnows(inbox: seq<ServerMsg>, id: nat, logins: seq<(nat, Name)>, m: map<nat, Name>)
    requires Replay(inbox) == map[] && Lists(logins, m) && id in m
    ensures Replay(inbox + [SInit(id, logins)] + [SLogin(id, m[id])]) == m
  {
    InitCopies(logins, m);
    ReplaySnoc(inbox, SInit(id, logins));
    ReplaySnoc(inbox + [SInit(id, logins)], SLogin(id, m[id]));
    assert m[id := m[id]] == m;
  }

  lemma LoginReplicatesAt(s: Chat, id: nat, name: Name, logins: seq<(nat, Name)>, other: nat)
    requires Replicated(s) && id !in s.participants && Lists(logins, s.participants[id := name]) && other in s.open
    ensures var m := s.participants[id := name];
            Replay(Inbox(LoggedIn(s, id, name, logins), other)) == if other in m then m else map[]
  {
    LoginTells(s, id, name, logins, other);
    var (before, m) := (Inbox(s, other), s.participants[id := name]);
    hide LoggedIn, Lists, Inbox;
    if other == id {
      NewcomerKnows(before, id, logins, m);
    } else if other in s.participants {
      ReplaySnoc(before, SLogin(id, name));
      assert before + [] + [SLogin(id, name)] == before + [SLogin(id, name)];
    } else {
      assert before + [] + [] == before;
    }
  }

  lemma LoginKeeps(s: Chat, id: nat, name: Name, logins: seq<(nat, Name)>)
    ensures var s' := LoggedIn(s, id, name, logins);
            s'.open == s.open && s'.participants == s.participants[id := name]
  {
    TellKeeps(s.(participants := s.participants[id := name]), multiset{id}, SInit(id, logins));
  }

  /** After a login the newcomer is sent the whole map and everybody the new entry. */
  lemma LoginReplicates(s: Chat, id: nat, name: Name, logins: seq<(nat, Name)>)
    requires Replicated(s) && id !in s.participants && Lists(logins, s.participants[id := name])
    ensures Replicated(LoggedIn(s, id, name, logins))
  {
    var s' := LoggedIn(s, id, name, logins);
    LoginKeeps(s, id, name, logins);
    hide LoggedIn, Inbox, Lists, Replay;
    forall other | other in s'.open
      ensures Replay(Inbox(s', other)) == if other in s'.participants then s'.participants else map[]
    {
      LoginReplicatesAt(s, id, name, logins, other);
    }
  }

  lemma MessageReplicates(s: Chat, id: nat, msg: ClientMsg, logins: seq<(nat, Name)>)
    requires Replicated(s) && ListsNewcomer(s, Message(id, msg), logins)
    ensures Replicated(HandleMessage(s, id, msg, logins))
  {
    hide Replicated, Tell, TellParticipants, Lists;
    var s' := HandleMessage(s, id, msg, logins);
    if id !in s.participants {
      assert s.participants - {id} == s.participants;
      if msg.CLogin? {
        if |msg.name| < MIN_NAME {
          TellKeeps(s, multiset{id}, SError(LoginNameTooShort));
          ReplyReplicates(s, id, LoginNameTooShort, s');
        } else if |msg.name| > MAX_NAME {
          TellKeeps(s, multiset{id}, SError(LoginNameTooLong));
          ReplyReplicates(s, id, LoginNameTooLong, s');
        } else {
          LoginReplicates(s, id, msg.name, logins);
        }
      } else {
        CloseReplicates(s, s');
      }
    } else {
      match msg {
        case CSay(text) => NoticeReplicates(s, s, SSay(id, text));
        case CName(name) =>
          if |name| < MIN_NAME {
            TellKeeps(s, multiset{id}, SError(NameTooShort));
            ReplyReplicates(s, id, NameTooShort, s');
          } else if |name| > MAX_NAME {
            TellKeeps(s, multiset{id}, SError(NameTooLong));
            ReplyReplicates(s, id, NameTooLong, s');
          } else {
            NoticeReplicates(s, s.(participants := s.participants[id := name]), SName(id, name));
          }
        case CRemove(other) =>
          if other in s.participants {
            NoticeReplicates(s, Close(RemoveClient(s, other), other), SRemove(other));
          } else {
            TellKeeps(s, multiset{id}, SError(NotFound(other)));
            ReplyReplicates(s, id, NotFound(other), s');
          }
        case _ => NoticeReplicates(s, Close(RemoveClient(s, id), id), SRemove(id));
      }
    }
  }

  lemma CloseReplicates(s: Chat, s': Chat)
    requires Replicated(s) && s'.inbox == s.inbox && s'.open <= s.open && s'.participants == s.participants
    ensures Replicated(s')
  {
    forall id | id in s'.open
      ensures Replay(Inbox(s', id)) == if id in s'.participants then s'.participants else map[]
    {
      assert id in s.open && Inbox(s', id) == Inbox(s, id);
    }
  }

  lemma StepReplicates(s: Chat, step: Step)
    requires Replicated(s) && Bounded(s) && Allowed(s, step)
    ensures Replicated(Next(s, step))
  {
    hide Lists;
    match step {
      case Opens(id) => assert Inbox(s, id) == [];
      case Loses(id) => CloseReplicates(s, Next(s, step));
      case Hands(event, logins) =>
        match event {
          case Connected(id) => CloseReplicates(s, Next(s, step));
          case Disconnected(id) =>
            hide Replicated;
            if id in s.participants {
              NoticeReplicates(s, RemoveClient(s, id), SLogoff(id));
            } else {
              assert s.participants - {id} == s.participants;
              CloseReplicates(s, Next(s, step));
            }
          case Message(id, msg) => MessageReplicates(s, id, msg, logins);
        }
    }
  }

  predicate Sound(s: Chat) {
    Bounded(s) && NamesOk(s)
  }

  lemma TellSound(s: Chat, targets: multiset<nat>, msg: ServerMsg)
    requires Sound(s)
    ensures Sound(Tell(s, targets, msg)) && Tell(s, targets, msg) == s.(inbox := Tell(s, targets, msg).inbox)
  {
    TellKeeps(s, targets, msg);
  }

  lemma NoticeSound(s: Chat, msg: ServerMsg)
    requires Sound(s)
    ensures Sound(TellParticipants(s, msg))
  {
    hide Sound, Tell;
    TellSound(s, multiset(s.participants.Keys), msg);
  }

  lemma RemovalSound(s: Chat, id: nat)
    requires Sound(s)
    ensures Sound(RemoveClient(s, id)) && Sound(Close(RemoveClient(s, id), id))
  {
  }

  lemma NamedSound(s: Chat, id: nat, name: Name)
    requires Sound(s) && id in s.seen && GoodName(name)
    ensures Sound(s.(participants := s.participants[id := name]))
  {
  }

  lemma MessageSound(s: Chat, id: nat, msg: ClientMsg, logins: seq<(nat, Name)>)
    requires Sound(s) && id in s.seen
    ensures Sound(HandleMessage(s, id, msg, logins))
  {
    hide Sound, Tell, TellParticipants, Close, RemoveClient;
    if id !in s.participants {
      RemovalSound(s, id);
      if msg.CLogin? {
        if |msg.name| < MIN_NAME {
          TellSound(s, multiset{id}, SError(LoginNameTooShort));
          RemovalSound(Tell(s, multiset{id}, SError(LoginNameTooShort)), id);
        } else if |msg.name| > MAX_NAME {
          TellSound(s, multiset{id}, SError(LoginNameTooLong));
          RemovalSound(Tell(s, multiset{id}, SError(LoginNameTooLong)), id);
        } else {
          NamedSound(s, id, msg.name);
          var s1 := s.(participants := s.participants[id := msg.name]);
          TellSound(s1, multiset{id}, SInit(id, logins));
          NoticeSound(Tell(s1, multiset{id}, SInit(id, logins)), SLogin(id, msg.name));
        }
      }
    } else {
      match msg {
        case CSay(text) => NoticeSound(s, SSay(id, text));
        case CName(name) =>
          if |name| < MIN_NAME {
            TellSound(s, multiset{id}, SError(NameTooShort));
          } else if |name| > MAX_NAME {
            TellSound(s, multiset{id}, SError(NameTooLong));
          } else {
            NamedSound(s, id, name);
            NoticeSound(s.(participants := s.participants[id := name]), SName(id, name));
          }
        case CRemove(other) =>
          RemovalSound(s, other);
          NoticeSound(if other in s.participants then Close(RemoveClient(s, other), other) else s, SRemove(other));
          TellSound(s, multiset{id}, SError(NotFound(other)));
        case _ =>
          RemovalSound(s, id);
          NoticeSound(Close(RemoveClient(s, id), id), SRemove(id));
      }
    }
  }

  lemma StepSound(s: Chat, step: Step)
    requires Sound(s) && Allowed(s, step)
    ensures Sound(Next(s, step))
  {
    match step {
      case Opens(id) =>
      case Loses(id) =>
      case Hands(event, logins) =>
        match event {
          case Connected(id) =>
          case Disconnected(id) =>
            RemovalSound(s, id);
            hide Sound;
            NoticeSound(RemoveClient(s, id), SLogoff(id));
          case Message(id, msg) =>
            MessageSound(s, id, msg, logins);
            hide HandleMessage;
        }
    }
  }

  /** In every run, after every step, replaying what has been sent over an open connection to a participant
      gives exactly the server's participant map; and all names are 2 to 50 bytes long. */
  lemma {:induction false} Replication(steps: seq<Step>)
    requires AllowedRun(steps)
    ensures Replicated(After(steps)) && Sound(After(steps))
  {
    if steps != [] {
      var (init, last) := (steps[..|steps| - 1], steps[|steps| - 1]);
      Replication(init);
      assert Bounded(After(init));
      hide Replicated, Bounded, Sound, Allowed, Next;
      StepReplicates(After(init), last);
      StepSound(After(init), last);
    }
  }

  // ---------------------------------------------------------------------------
  // Who is told what, and who is a client
  // ---------------------------------------------------------------------------

  /** The notices among `msgs`: everything but greetings and errors. */
  function Notices(msgs: seq<ServerMsg>): seq<ServerMsg> {
    if msgs == [] then []
    else
      var last := msgs[|msgs| - 1];
      Notices(msgs[..|msgs| - 1]) + (if last.SInit? || last.SError? then [] else [last])
  }

  /** What an event has to be announced as. */
  function Announcement(s: Chat, event: Event): seq<ServerMsg> {
    match event
    case Connected(_) => []
    case Disconnected(id) => if id in s.participants then [SLogoff(id)] else []
    case Message(id, CLogin(name)) =>
      if id in s.participants then [SRemove(id)] else if GoodName(name) then [SLogin(id, name)] else []
    case Message(id, CSay(text)) => if id in s.participants then [SSay(id, text)] else []
    case Message(id, CName(name)) => if id in s.participants && GoodName(name) then [SName(id, name)] else []
    case Message(id, CRemove(other)) =>
      if id in s.participants && other in s.participants then [SRemove(other)] else []
    case Message(id, CUnknown) => if id in s.participants then [SRemove(id)] else []
  }

  /** What the sender of a message is answered itself. */
  function Answer(s: Chat, event: Event, logins: seq<(nat, Name)>): seq<ServerMsg> {
    match event
    case Message(id, CLogin(name)) =>
      if id in s.participants then []
      else if |name| < MIN_NAME then [SError(LoginNameTooShort)]
      else if |name| > MAX_NAME then [SError(LoginNameTooLong)]
      else [SInit(id, logins)]
    case Message(id, CName(name)) =>
      if id !in s.participants then []
      else if |name| < MIN_NAME then [SError(NameTooShort)]
      else if |name| > MAX_NAME then [SError(NameTooLong)]
      else []
    case Message(id, CRemove(other)) =>
      if id in s.participants && other !in s.participants then [SError(NotFound(other))] else []
    case _ => []
  }

  /** An error for one connection. */
  lemma AnsweredAt(s: Chat, from: nat, reason: Reason, id: nat)
    ensures var s1 := Tell(s, multiset{from}, SError(reason));
            && s1 == s.(inbox := s1.inbox)
            && Inbox(s1, id) == Inbox(s, id) + (if id == from && id in s.open then [SError(reason)] else [])
  {
    TellOne(s, from, SError(reason), id);
  }

  /** Everything an event sends to `id`: the answer to its sender, then the notice to the participants. */
  function Sends(s: Chat, event: Event, logins: seq<(nat, Name)>, id: nat): seq<ServerMsg> {
    var s' := Handle(s, event, logins);
    (if id == event.id && id in s.open then Answer(s, event, logins) else [])
    + (if id in s'.participants && id in s'.open then Announcement(s, event) else [])
  }

  lemma Joined(before: seq<ServerMsg>, answer: seq<ServerMsg>, notice: seq<ServerMsg>)
    ensures before + (answer + notice) == before + answer + notice
    ensures before + [] == before
  {
  }

  lemma NoticeSent(s: Chat, msg: ServerMsg, id: nat)
    ensures TellParticipants(s, msg) == s.(inbox := TellParticipants(s, msg).inbox)
    ensures Inbox(TellParticipants(s, msg), id)
            == Inbox(s, id) + (if id in s.participants && id in s.open then [msg] else [])
  {
    TellParticipantsAll(s, msg, id);
    TellKeeps(s, multiset(s.participants.Keys), msg);
  }

  lemma LoginIsSent(s: Chat, from: nat, name: Name, logins: seq<(nat, Name)>, id: nat)
    requires from !in s.participants
    ensures Inbox(HandleMessage(s, from, CLogin(name), logins), id)
            == Inbox(s, id) + Sends(s, Message(from, CLogin(name)), logins, id)
  {
    Joined(Inbox(s, id), if id == from && id in s.open then [SInit(from, logins)] else [],
           if (id == from || id in s.participants) && id in s.open then [SLogin(from, name)] else []);
    if GoodName(name) {
      LoginTells(s, from, name, logins, id);
      var s1 := s.(participants := s.participants[from := name]);
      TellKeeps(s1, multiset{from}, SInit(from, logins));
      NoticeSent(Tell(s1, multiset{from}, SInit(from, logins)), SLogin(from, name), id);
    } else {
      AnsweredAt(s, from, LoginNameTooShort, id);
      AnsweredAt(s, from, LoginNameTooLong, id);
    }
    hide Tell, TellParticipants;
  }

  lemma StrangerIsSent(s: Chat, from: nat, msg: ClientMsg, logins: seq<(nat, Name)>, id: nat)
    requires from !in s.participants
    ensures Inbox(HandleMessage(s, from, msg, logins), id) == Inbox(s, id) + Sends(s, Message(from, msg), logins, id)
  {
    if msg.CLogin? {
      LoginIsSent(s, from, msg.name, logins, id);
    } else {
      Joined(Inbox(s, id), [], []);
    }
  }

  lemma ParticipantIsSent(s: Chat, from: nat, msg: ClientMsg, logins: seq<(nat, Name)>, id: nat)
    requires from in s.participants
    ensures Inbox(HandleMessage(s, from, msg, logins), id) == Inbox(s, id) + Sends(s, Message(from, msg), logins, id)
  {
    var s' := HandleMessage(s, from, msg, logins);
    Joined(Inbox(s, id), if id == from && id in s.open then Answer(s, Message(from, msg), logins) else [],
           if id in s'.participants && id in s'.open then Announcement(s, Message(from, msg)) else []);
    hide Tell, TellParticipants;
    match msg {
      case CSay(text) => NoticeSent(s, SSay(from, text), id);
      case CName(name) =>
        if |name| < MIN_NAME {
          AnsweredAt(s, from, NameTooShort, id);
        } else if |name| > MAX_NAME {
          AnsweredAt(s, from, NameTooLong, id);
        } else {
          NoticeSent(s.(participants := s.participants[from := name]), SName(from, name), id);
        }
      case CRemove(other) =>
        if other in s.participants {
          NoticeSent(Close(RemoveClient(s, other), other), SRemove(other), id);
        } else {
          AnsweredAt(s, from, NotFound(other), id);
        }
      case _ => NoticeSent(Close(RemoveClient(s, from), from), SRemove(from), id);
    }
  }

  lemma EventIsSent(s: Chat, event: Event, logins: seq<(nat, Name)>, id: nat)
    ensures Inbox(Handle(s, event, logins), id) == Inbox(s, id) + Sends(s, event, logins, id)
  {
    hide Tell, TellParticipants;
    match event {
      case Connected(_) => Joined(Inbox(s, id), [], []);
      case Disconnected(from) =>
        NoticeSent(RemoveClient(s, from), SLogoff(from), id);
        Joined(Inbox(s, id), [], [SLogoff(from)]);
      case Message(from, msg) =>
        hide HandleMessage, Sends;
        if from in s.participants {
          ParticipantIsSent(s, from, msg, logins, id);
        } else {
          StrangerIsSent(s, from, msg, logins, id);
        }
    }
  }

  lemma NoticesSnoc(msgs: seq<ServerMsg>, msg: ServerMsg)
    ensures Notices(msgs + [msg]) == Notices(msgs) + (if msg.SInit? || msg.SError? then [] else [msg])
  {
    assert (msgs + [msg])[..|msgs|] == msgs;
  }

  lemma NoticesAfterAnswer(answer: seq<ServerMsg>, notice: seq<ServerMsg>)
    requires answer == [] || (|answer| == 1 && (answer[0].SInit? || answer[0].SError?))
    requires notice == [] || (|notice| == 1 && !(notice[0].SInit? || notice[0].SError?))
    ensures Notices(answer + notice) == notice
  {
    hide Notices;
    assert Notices([]) == [] by { NoNotices(); }
    if answer != [] {
      NoticesSnoc([], answer[0]);
      assert answer == [] + [answer[0]];
    }
    if notice != [] {
      NoticesSnoc(answer, notice[0]);
      assert notice == [notice[0]];
    } else {
      assert answer + notice == answer;
    }
  }

  lemma NoNotices()
    ensures Notices([]) == []
  {
  }

  lemma ShortAnswers(s: Chat, event: Event, logins: seq<(nat, Name)>)
    ensures var answer := Answer(s, event, logins);
            answer == [] || (|answer| == 1 && (answer[0].SInit? || answer[0].SError?))
    ensures var notice := Announcement(s, event);
            notice == [] || (|notice| == 1 && !(notice[0].SInit? || notice[0].SError?))
  {
  }

  /** Each login, logoff, rename, removal and chat line reaches exactly the participants after the step whose
      connection is open, once; nobody else is told anything but an error or a greeting. */
  lemma NoticesReachParticipants(s: Chat, event: Event, logins: seq<(nat, Name)>, id: nat)
    ensures var s' := Handle(s, event, logins);
            && Inbox(s, id) <= Inbox(s', id)
            && Notices(Inbox(s', id)[|Inbox(s, id)|..])
               == if id in s'.participants && id in s'.open then Announcement(s, event) else []
  {
    EventIsSent(s, event, logins, id);
    var s' := Handle(s, event, logins);
    assert Inbox(s', id)[|Inbox(s, id)|..] == Sends(s, event, logins, id);
    hide Handle, Inbox, Notices;
    ShortAnswers(s, event, logins);
    hide Answer, Announcement;
    NoticesAfterAnswer(if id == event.id && id in s.open then Answer(s, event, logins) else [],
                       if id in s'.participants && id in s'.open then Announcement(s, event) else []);
  }

  // ---------------------------------------------------------------------------
  // Who is thrown out, and who joins
  // ---------------------------------------------------------------------------

  /** Whose connection an event makes the server close: a stranger who does anything but log in under a name of 2 to
      50 bytes, a participant who logs in again or sends something unknown, and a participant another one removes. */
  function Expelled(s: Chat, event: Event): set<nat> {
    if !event.Message? then {}
    else if event.id !in s.participants then
      (if event.msg.CLogin? && 2 <= |event.msg.name| <= 50 then {} else {event.id})
    else
      match event.msg
      case CSay(_) => {}
      case CName(_) => {}
      case CRemove(other) => if other in s.participants then {other} else {}
      case CLogin(_) => {event.id}
      case CUnknown => {event.id}
  }

  /** Who has the name an event gives: the newcomer, or the participant who changes to a name of 2 to 50 bytes. */
  function Named(s: Chat, event: Event): map<nat, Name> {
    if !event.Message? then map[]
    else
      match event.msg
      case CLogin(name) => if event.id !in s.participants && 2 <= |name| <= 50 then map[event.id := name] else map[]
      case CName(name) => if event.id in s.participants && 2 <= |name| <= 50 then map[event.id := name] else map[]
      case _ => map[]
  }

  datatype Roster = Roster(clients: set<nat>, participants: map<nat, Name>, open: set<nat>, seen: set<nat>)

  function RosterOf(s: Chat): Roster {
    Roster(s.clients, s.participants, s.open, s.seen)
  }

  lemma TellingMovesNobody(s: Chat, targets: multiset<nat>, msg: ServerMsg)
    ensures RosterOf(Tell(s, targets, msg)) == RosterOf(s) && RosterOf(TellParticipants(s, msg)) == RosterOf(s)
  {
  }

  lemma StrangerRoster(s: Chat, from: nat, msg: ClientMsg, logins: seq<(nat, Name)>)
    requires from !in s.participants
    ensures RosterOf(HandleMessage(s, from, msg, logins))
            == if msg.CLogin? && GoodName(msg.name) then RosterOf(s.(participants := s.participants[from := msg.name]))
               else RosterOf(Close(RemoveClient(s, from), from))
  {
    if msg.CLogin? {
      TellingMovesNobody(s, multiset{from}, SError(LoginNameTooShort));
      TellingMovesNobody(s, multiset{from}, SError(LoginNameTooLong));
      var s1 := s.(participants := s.participants[from := msg.name]);
      TellingMovesNobody(s1, multiset{from}, SInit(from, logins));
      TellingMovesNobody(Tell(s1, multiset{from}, SInit(from, logins)), multiset{}, SLogin(from, msg.name));
    }
    hide Tell, TellParticipants;
  }

  lemma ParticipantRoster(s: Chat, from: nat, msg: ClientMsg, logins: seq<(nat, Name)>)
    requires from in s.participants
    ensures RosterOf(HandleMessage(s, from, msg, logins))
            == match msg
               case CSay(_) => RosterOf(s)
               case CName(name) =>
                 if GoodName(name) then RosterOf(s.(participants := s.participants[from := name])) else RosterOf(s)
               case CRemove(other) =>
                 if other in s.participants then RosterOf(Close(RemoveClient(s, other), other)) else RosterOf(s)
               case CLogin(_) => RosterOf(Close(RemoveClient(s, from), from))
               case CUnknown => RosterOf(Close(RemoveClient(s, from), from))
  {
    match msg {
      case CSay(text) => TellingMovesNobody(s, multiset{}, SSay(from, text));
      case CName(name) =>
        TellingMovesNobody(s, multiset{from}, SError(NameTooShort));
        TellingMovesNobody(s, multiset{from}, SError(NameTooLong));
        TellingMovesNobody(s.(participants := s.participants[from := name]), multiset{}, SName(from, name));
      case CRemove(other) =>
        TellingMovesNobody(s, multiset{from}, SError(NotFound(other)));
        TellingMovesNobody(Close(RemoveClient(s, other), other), multiset{}, SRemove(other));
      case _ => TellingMovesNobody(Close(RemoveClient(s, from), from), multiset{}, SRemove(from));
    }
    hide Tell, TellParticipants;
  }

  /** After every event: the expelled are no clients and no participants any more and their connections are closed,
      a disconnected client is forgotten, the named have their names, and everybody else is as before. */
  lemma WhoStays(s: Chat, event: Event, logins: seq<(nat, Name)>, id: nat)
    ensures var s' := Handle(s, event, logins);
            var (expelled, left, named) := (id in Expelled(s, event), event == Disconnected(id), Named(s, event));
            && s'.seen == s.seen
            && (id in s'.open <==> id in s.open && !expelled)
            && (id in s'.clients <==> (id in s.clients && !expelled && !left) || event == Connected(id))
            && (id in s'.participants <==> id in named || (id in s.participants && !expelled && !left))
            && (id in s'.participants ==> s'.participants[id] == if id in named then named[id] else s.participants[id])
  {
    match event {
      case Connected(_) =>
      case Disconnected(gone) => TellingMovesNobody(RemoveClient(s, gone), multiset{}, SLogoff(gone));
      case Message(from, msg) =>
        if from in s.participants {
          ParticipantRoster(s, from, msg, logins);
        } else {
          StrangerRoster(s, from, msg, logins);
        }
    }
    hide Tell, TellParticipants, HandleMessage;
  }

  // ---------------------------------------------------------------------------
  // Participants and clients
  // ---------------------------------------------------------------------------

  predicate ParticipantsAreClients(s: Chat) {
    s.participants.Keys <= s.clients
  }

  /** The one event that makes a participant of somebody who is no client: an acceptable login under an id that
      the server does not know or has removed. */
  predicate Intrudes(s: Chat, step: Step) {
    && step.Hands? && step.event.Message? && step.event.msg.CLogin?
    && step.event.id !in s.clients && GoodName(step.event.msg.name)
  }

  lemma IntrusionIff(s: Chat, step: Step)
    requires ParticipantsAreClients(s)
    ensures ParticipantsAreClients(Next(s, step)) <==> !Intrudes(s, step)
  {
    forall targets, msg, s0 | true
      ensures Tell(s0, targets, msg).clients == s0.clients && Tell(s0, targets, msg).participants == s0.participants
    {
      TellKeeps(s0, targets, msg);
    }
    hide Tell;
  }

  /** No message for an id comes before its Connected event or after its removal. */
  ghost predicate MessagesFromClients(steps: seq<Step>) {
    steps == []
    || (var (init, last) := (steps[..|steps| - 1], steps[|steps| - 1]);
        MessagesFromClients(init)
        && (last.Hands? && last.event.Message? ==> last.event.id in After(init).clients))
  }

  lemma {:induction false} ParticipantsStayClients(steps: seq<Step>)
    requires MessagesFromClients(steps)
    ensures ParticipantsAreClients(After(steps))
  {
    if steps != [] {
      ParticipantsStayClients(steps[..|steps| - 1]);
      hide ParticipantsAreClients, Next;
      IntrusionIff(After(steps[..|steps| - 1]), steps[|steps| - 1]);
    }
  }

  /** Such a run exists: a stranger's first message is a chat line, which gets it removed and closed, and its
      login is already in the same batch. It stays a participant without a connection. */
  lemma RemovedClientLogsIn()
    ensures var name: Name := [65, 66];
            var steps := [Opens(5), Hands(Connected(5), []), Hands(Message(5, CSay([])), []),
                          Hands(Message(5, CLogin(name)), [(5, name)])];
            && AllowedRun(steps)
            && After(steps).participants == map[5 := name] && After(steps).clients == {} && After(steps).open == {}
  {
    var name: Name := [65, 66];
    var (s1, s2, s3, s4) := (Opens(5), Hands(Connected(5), []), Hands(Message(5, CSay([])), []),
                             Hands(Message(5, CLogin(name)), [(5, name)]));
    RunSnoc([], s1);
    assert [] + [s1] == [s1];
    RunSnoc([s1], s2);
    assert [s1] + [s2] == [s1, s2];
    RunSnoc([s1, s2], s3);
    assert [s1, s2] + [s3] == [s1, s2, s3];
    RunSnoc([s1, s2, s3], s4);
    assert [s1, s2, s3] + [s4] == [s1, s2, s3, s4];
    hide After, AllowedRun;
    NothingRun();
    assert After([s1, s2, s3]).participants == map[] && After([s1, s2, s3]).clients == {};
    assert [(5, name)][0].0 == 5;
  }

  lemma RunSnoc(steps: seq<Step>, step: Step)
    ensures After(steps + [step]) == Next(After(steps), step)
    ensures AllowedRun(steps + [step]) <==> AllowedRun(steps) && Allowed(After(steps), step)
  {
    assert (steps + [step])[..|steps|] == steps;
  }

  lemma NothingRun()
    ensures After([]) == START && AllowedRun([])
  {
  }
}
