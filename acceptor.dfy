/** The acceptor (room.ServeHTTP in chat/room.go): for each websocket
    connection it makes a client with a fresh, empty channel, joins it to
    the room, runs the client's read loop and, when that returns, makes the
    client leave. The room sees the session as the events the acceptor and
    the read loop send it; the writer goroutine runs beside it. */
module Acceptor {
  import opened Messages
  import opened ChatRoom
  import ChatClient

  /** The events the read loop sends: one forward per message. */
  function Forwards(msgs: seq<Message>): (evs: seq<Event>)
    ensures |evs| == |msgs|
    ensures forall i :: 0 <= i < |msgs| ==> evs[i] == Forward(msgs[i])
  {
    seq(|msgs|, i requires 0 <= i < |msgs| => Forward(msgs[i]))
  }

  /** A whole session of client `id`: join, the forwards of its read loop,
      then the deferred leave. It joins first, leaves last, and joins and
      leaves exactly once each: in between there are only forwards. */
  function Session(id: ClientId, msgs: seq<Message>): (evs: seq<Event>)
    ensures |evs| == |msgs| + 2
    ensures evs[0] == Join(id) && evs[|evs| - 1] == Leave(id)
    ensures forall i :: 0 < i < |evs| - 1 ==> evs[i] == Forward(msgs[i - 1])
    ensures multiset(evs)[Join(id)] == 1 && multiset(evs)[Leave(id)] == 1
  {
    var fs := Forwards(msgs);
    assert Join(id) !in fs && Leave(id) !in fs;
    assert multiset([Join(id)] + fs + [Leave(id)]) == multiset([Join(id)]) + multiset(fs) + multiset([Leave(id)]);
    [Join(id)] + fs + [Leave(id)]
  }

  /** The messages of a member that stays a member are all owed to it. */
  lemma {:induction false} ForwardsOwed(c: ClientId, msgs: seq<Message>, rest: seq<Event>)
    ensures Inbox(c, Forwards(msgs) + rest, true) == msgs + Inbox(c, rest, true)
    decreases |msgs|
  {
    if msgs != [] {
      var evs := Forwards(msgs) + rest;
      assert evs[0] == Forward(msgs[0]);
      assert evs[1..] == Forwards(msgs[1..]) + rest;
      ForwardsOwed(c, msgs[1..], rest);
      assert msgs == [msgs[0]] + msgs[1..];
    } else {
      assert Forwards(msgs) + rest == rest;
    }
  }

  /** A client that is alone with its session gets its own messages back,
      each once and in the order it sent them. */
  lemma SessionEcho(id: ClientId, msgs: seq<Message>)
    ensures Inbox(id, Session(id, msgs), false) == msgs
  {
    var evs := Session(id, msgs);
    assert evs[1..] == Forwards(msgs) + [Leave(id)];
    ForwardsOwed(id, msgs, [Leave(id)]);
    assert [Leave(id)][1..] == [];
  }

  /** The session keeps the senders' contract whenever the identity is new
      and no channel overflows with its messages. */
  lemma {:induction false} ForwardsAdmissible(msgs: seq<Message>, rest: seq<Event>, seen: set<ClientId>, members: set<ClientId>, budget: nat)
    requires |msgs| <= budget
    requires Admissible(rest, seen, members, budget - |msgs|)
    ensures Admissible(Forwards(msgs) + rest, seen, members, budget)
    decreases |msgs|
  {
    if msgs == [] {
      assert Forwards(msgs) + rest == rest;
    } else {
      var evs := Forwards(msgs) + rest;
      assert evs[0] == Forward(msgs[0]);
      assert evs[1..] == Forwards(msgs[1..]) + rest;
      ForwardsAdmissible(msgs[1..], rest, seen, members, budget - 1);
    }
  }

  lemma SessionAdmissible(id: ClientId, msgs: seq<Message>, seen: set<ClientId>, members: set<ClientId>, budget: nat)
    requires id !in seen && |msgs| <= budget
    ensures Admissible(Session(id, msgs), seen, members, budget)
  {
    var evs := Session(id, msgs);
    var tail := [Leave(id)];
    assert tail[1..] == [];
    assert Admissible(tail, seen + {id}, members + {id}, budget - |msgs|);
    ForwardsAdmissible(msgs, tail, seen + {id}, members + {id}, budget);
    assert evs[1..] == Forwards(msgs) + tail;
  }

  /** room.ServeHTTP after the upgrade and the cookie have succeeded: build
      the client from the cookie data, join, run read to its end, leave.
      Returns the events the room is sent, in order. */
  method ServeHTTP(id: ClientId, userData: map<string, string>, wire: seq<ChatClient.Frame>,
                   clock: nat -> Timestamp, socket: ChatClient.Socket)
    returns (sent: seq<Event>)
    requires "name" in userData
    modifies socket
    ensures sent == Session(id, ChatClient.Forwarded(userData, wire, clock))
    ensures socket.closes == old(socket.closes) + 1
  {
    var forwarded := ChatClient.Read(socket, userData, wire, clock);
    sent := [Join(id)] + Forwards(forwarded) + [Leave(id)];
  }

  /** A session that runs alone on a room where its client is new: the room
      can take every event, the client's channel ends up holding exactly the
      client's own messages, and the client is no longer in the room. */
  lemma SessionAlone(s: RoomState, id: ClientId, msgs: seq<Message>)
    requires Inv(s) && id !in s.mailboxes
    requires |msgs| <= MessageBufferSize
    requires forall c :: c in s.members ==> |s.mailboxes[c].queue| + |msgs| <= MessageBufferSize
    ensures Runnable(s, Session(id, msgs))
    ensures QueueOf(Run(s, Session(id, msgs)), id) == msgs
    ensures id !in Run(s, Session(id, msgs)).members
  {
    SessionAdmissible(id, msgs, s.mailboxes.Keys, s.members, |msgs|);
    AdmissibleRunnable(s, Session(id, msgs), |msgs|);
    FanOut(s, Session(id, msgs), id);
    SessionEcho(id, msgs);
    Membership(s, Session(id, msgs), id);
    SessionLeaves(id, msgs);
  }

  /** The session ends with its client out of the room. */
  lemma SessionLeaves(id: ClientId, msgs: seq<Message>)
    ensures !MemberAt(id, Session(id, msgs), false)
  {
    var evs := Session(id, msgs);
    assert evs[1..] == Forwards(msgs) + [Leave(id)];
    StaysMember(id, msgs, [Leave(id)]);
    assert [Leave(id)][1..] == [];
  }

  /** Forwards do not change membership. */
  lemma {:induction false} StaysMember(c: ClientId, msgs: seq<Message>, rest: seq<Event>)
    ensures MemberAt(c, Forwards(msgs) + rest, true) == MemberAt(c, rest, true)
    decreases |msgs|
  {
    if msgs == [] {
      assert Forwards(msgs) + rest == rest;
    } else {
      var evs := Forwards(msgs) + rest;
      assert evs[0] == Forward(msgs[0]);
      assert evs[1..] == Forwards(msgs[1..]) + rest;
      StaysMember(c, msgs[1..], rest);
    }
  }
}
