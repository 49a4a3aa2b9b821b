/** The server and the client of the chat as objects that update their maps in place. */
module ChatObjects {
  import opened Bytes
  import opened ChatModel

  /** The messenger as the server sees it: the connections it still has, and a FIFO for each. */
  class Messenger {
    var open: set<nat>
    var inbox: map<nat, seq<ServerMsg>>
    ghost var seen: set<nat>

    constructor ()
      ensures open == {} && inbox == map[] && seen == {}
    {
      open, inbox, seen := {}, map[], {};
    }

    /** This messenger beside a server. */
    ghost function With(clients: set<nat>, participants: map<nat, Name>): Chat
      reads this
    {
      Chat(clients, participants, open, seen, inbox)
    }

    method SendTo(id: nat, msg: ServerMsg)
      modifies this`inbox
      ensures forall clients, participants ::
                With(clients, participants) == Tell(old(With(clients, participants)), multiset{id}, msg)
    {
      forall clients, participants {
        TellOnce(With(clients, participants), id, msg);
      }
      hide Tell;
      if id in open {
        inbox := inbox[id := (if id in inbox then inbox[id] else []) + [msg]];
      }
    }

    /** One message for each listed id, in turn. */
    method SendToMany(ids: seq<nat>, msg: ServerMsg)
      modifies this`inbox
      ensures forall clients, participants ::
                With(clients, participants) == Tell(old(With(clients, participants)), multiset(ids), msg)
    {
      hide Tell;
      forall clients, participants {
        TellNobody(With(clients, participants), msg);
      }
      for i := 0 to |ids|
        invariant forall clients, participants ::
                    With(clients, participants) == Tell(old(With(clients, participants)), multiset(ids[..i]), msg)
      {
        forall clients, participants {
          TellOneMore(old(With(clients, participants)), multiset(ids[..i]), ids[i], msg);
        }
        assert ids[..i + 1] == ids[..i] + [ids[i]];
        SendTo(ids[i], msg);
      }
      assert ids[..|ids|] == ids;
    }

    method CloseConnection(id: nat)
      modifies this`open
      ensures open == old(open) - {id}
    {
      open := open - {id};
    }
  }

  class Server {
    var clients: set<nat>
    var participants: map<nat, Name>

    constructor ()
      ensures clients == {} && participants == map[]
    {
      clients, participants := {}, map[];
    }

    ghost function Model(messenger: Messenger): Chat
      reads this, messenger
    {
      messenger.With(clients, participants)
    }

    method AddClient(id: nat)
      modifies this`clients
      ensures clients == old(clients) + {id}
    {
      clients := clients + {id};
    }

    method RemoveClient(id: nat)
      modifies this
      ensures clients == old(clients) - {id} && participants == old(participants) - {id}
    {
      clients := clients - {id};
      participants := participants - {id};
    }

    method AddParticipant(id: nat, name: Name)
      modifies this`participants
      ensures participants == old(participants)[id := name]
    {
      participants := participants[id := name];
    }

    method ModifyParticipant(id: nat, name: Name)
      modifies this`participants
      ensures participants == if id in old(participants) then old(participants)[id := name] else old(participants)
    {
      if id in participants {
        participants := participants[id := name];
      }
    }

    /** The entries of the map, in whatever order it yields them. */
    method GetParticipantNames() returns (logins: seq<(nat, Name)>)
      ensures Lists(logins, participants) && |logins| == |participants|
    {
      logins := [];
      var left := participants.Keys;
      while left != {}
        invariant left <= participants.Keys && |logins| + |left| == |participants.Keys|
        invariant Lists(logins, participants - left)
        decreases left
      {
        var id :| id in left;
        ListsOneMore(logins, participants - left, id, participants[id]);
        assert participants - (left - {id}) == (participants - left)[id := participants[id]];
        logins := logins + [(id, participants[id])];
        left := left - {id};
      }
      assert participants - left == participants;
    }

    method GetParticipantIds() returns (ids: seq<nat>)
      ensures multiset(ids) == multiset(participants.Keys)
    {
      ids := [];
      var left := participants.Keys;
      while left != {}
        invariant left <= participants.Keys && multiset(ids) == multiset(participants.Keys - left)
        decreases left
      {
        var id :| id in left;
        assert participants.Keys - (left - {id}) == (participants.Keys - left) + {id};
        ids := ids + [id];
        left := left - {id};
      }
      assert participants.Keys - left == participants.Keys;
    }

    method TellAll(messenger: Messenger, msg: ServerMsg)
      modifies messenger`inbox
      ensures Model(messenger) == TellParticipants(old(Model(messenger)), msg)
    {
      hide Tell;
      var ids := GetParticipantIds();
      messenger.SendToMany(ids, msg);
    }

    method HandleConnect(id: nat)
      modifies this`clients
      ensures clients == old(clients) + {id}
    {
      AddClient(id);
    }

    method HandleDisconnect(id: nat, messenger: Messenger)
      modifies this, messenger`inbox
      ensures Model(messenger) == Handle(old(Model(messenger)), Disconnected(id), [])
    {
      hide TellParticipants;
      var wasParticipant := id in participants;
      RemoveClient(id);
      if wasParticipant {
        TellAll(messenger, SLogoff(id));
      }
    }

    /** The first message of a client that is no participant. */
    method HandleStranger(id: nat, msg: ClientMsg, messenger: Messenger) returns (ghost logins: seq<(nat, Name)>)
      requires id !in participants
      modifies this, messenger
      ensures Model(messenger) == ChatModel.HandleMessage(old(Model(messenger)), id, msg, logins)
      ensures ListsNewcomer(old(Model(messenger)), Message(id, msg), logins)
      ensures messenger.seen == old(messenger.seen)
    {
      hide Tell, TellParticipants, Lists;
      logins := [];
      if msg.CLogin? {
        if |msg.name| < 2 {
          messenger.SendTo(id, SError(LoginNameTooShort));
          TellKeeps(old(Model(messenger)), multiset{id}, SError(LoginNameTooShort));
          RemoveClient(id);
          messenger.CloseConnection(id);
          return;
        }
        if |msg.name| > 50 {
          messenger.SendTo(id, SError(LoginNameTooLong));
          TellKeeps(old(Model(messenger)), multiset{id}, SError(LoginNameTooLong));
          RemoveClient(id);
          messenger.CloseConnection(id);
          return;
        }
        AddParticipant(id, msg.name);
        var names := GetParticipantNames();
        logins := names;
        messenger.SendTo(id, SInit(id, names));
        TellAll(messenger, SLogin(id, msg.name));
      } else {
        RemoveClient(id);
        messenger.CloseConnection(id);
      }
    }

    method HandleMessage(id: nat, msg: ClientMsg, messenger: Messenger) returns (ghost logins: seq<(nat, Name)>)
      modifies this, messenger
      ensures Model(messenger) == ChatModel.HandleMessage(old(Model(messenger)), id, msg, logins)
      ensures ListsNewcomer(old(Model(messenger)), Message(id, msg), logins)
    {
      hide Tell, TellParticipants;
      logins := [];
      if id !in participants {
        hide ChatModel.HandleMessage;
        logins := HandleStranger(id, msg, messenger);
        return;
      }
      match msg {
        case CSay(text) =>
          TellAll(messenger, SSay(id, text));
        case CName(name) =>
          if |name| < 2 {
            messenger.SendTo(id, SError(NameTooShort));
            return;
          }
          if |name| > 50 {
            messenger.SendTo(id, SError(NameTooLong));
            return;
          }
          ModifyParticipant(id, name);
          TellAll(messenger, SName(id, name));
        case CRemove(other) =>
          if other in participants {
            RemoveClient(other);
            messenger.CloseConnection(other);
            TellAll(messenger, SRemove(other));
          } else {
            messenger.SendTo(id, SError(NotFound(other)));
          }
        case _ =>
          RemoveClient(id);
          messenger.CloseConnection(id);
          TellAll(messenger, SRemove(id));
      }
    }

    /** `dispatch_event`: a step of the chat, with the order in which the participants were listed. */
    method DispatchEvent(event: Event, messenger: Messenger) returns (ghost logins: seq<(nat, Name)>)
      modifies this, messenger
      ensures Model(messenger) == Next(old(Model(messenger)), Hands(event, logins))
      ensures ListsNewcomer(old(Model(messenger)), event, logins)
    {
      hide ChatModel.HandleMessage, TellParticipants, Lists;
      logins := [];
      match event {
        case Connected(id) => HandleConnect(id);
        case Disconnected(id) => HandleDisconnect(id, messenger);
        case Message(id, msg) => logins := HandleMessage(id, msg, messenger);
      }
    }
  }

  class Client {
    var participants: map<nat, Name>

    constructor ()
      ensures participants == map[]
    {
      participants := map[];
    }

    method AddParticipant(id: nat, name: Name)
      modifies this
      ensures participants == old(participants)[id := name]
    {
      participants := participants[id := name];
    }

    method RemoveParticipant(id: nat)
      modifies this
      ensures participants == old(participants) - {id}
    {
      participants := participants - {id};
    }

    method ModifyParticipantName(id: nat, name: Name)
      modifies this
      ensures participants == if id in old(participants) then old(participants)[id := name] else old(participants)
    {
      if id in participants {
        participants := participants[id := name];
      }
    }

    method HandleMessage(msg: ServerMsg)
      modifies this
      ensures participants == ApplyMsg(old(participants), msg)
    {
      match msg {
        case SInit(_, logins) =>
          for i := 0 to |logins|
            invariant participants == InsertAll(old(participants), logins[..i])
          {
            assert logins[..i + 1][..i] == logins[..i];
            AddParticipant(logins[i].0, logins[i].1);
          }
          assert logins[..|logins|] == logins;
        case SError(_) =>
        case SLogin(id, name) => AddParticipant(id, name);
        case SLogoff(id) => RemoveParticipant(id);
        case SRemove(id) => RemoveParticipant(id);
        case SSay(_, _) =>
        case SName(id, name) => if id in participants { ModifyParticipantName(id, name); }
      }
    }

    /** A client that works off what it has been sent, in order, ends with the replayed map. */
    method Follow(inbox: seq<ServerMsg>)
      requires participants == map[]
      modifies this
      ensures participants == Replay(inbox)
    {
      for i := 0 to |inbox|
        invariant participants == Replay(inbox[..i])
      {
        assert inbox[..i + 1][..i] == inbox[..i];
        HandleMessage(inbox[i]);
      }
      assert inbox[..|inbox|] == inbox;
    }
  }

  lemma ListsOneMore(logins: seq<(nat, Name)>, m: map<nat, Name>, id: nat, name: Name)
    requires Lists(logins, m) && id !in m
    ensures Lists(logins + [(id, name)], m[id := name])
  {
    var (more, m') := (logins + [(id, name)], m[id := name]);
    forall other | other in m'
      ensures exists i :: 0 <= i < |more| && more[i].0 == other
    {
      if other == id {
        assert more[|logins|].0 == id;
      } else {
        var i :| 0 <= i < |logins| && logins[i].0 == other;
        assert more[i] == logins[i];
      }
    }
  }
}
