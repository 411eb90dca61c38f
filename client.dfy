/** The client adapter (chat/client.go): `read` turns the frames decoded from
    a websocket into stamped messages for the room, and `write` drains the
    client's channel onto the websocket. The socket, the JSON codec and the
    clock are inputs: the frames the socket yields, whether each write
    succeeds, and the time read at each message. */
module ChatClient {
  import opened Messages
  import ChatRoom

  /** The websocket connection, reduced to the number of times it was closed. */
  class Socket {
    var closes: nat

    constructor ()
      ensures closes == 0
    {
      closes := 0;
    }

    method Close()
      modifies this
      ensures closes == old(closes) + 1
    {
      closes := closes + 1;
    }
  }

  /** What one ReadJSON yields: a decoded message, or an error (a malformed
      frame or the connection going away). A wire that runs out stands for a
      connection that was closed, which ReadJSON also reports as an error. */
  datatype Frame = Decoded(msg: Message) | DecodeError

  /** The identity stamped on a decoded message: the user's name is always
      taken from the cookie data, the avatar only when the cookie has one,
      and the time is the time of reading. The body is left alone. */
  function Stamp(m: Message, userData: map<string, string>, now: Timestamp): (r: Message)
    requires "name" in userData
    ensures r.body == m.body && r.when == now
    ensures r.name == userData["name"]
    ensures "avatar_url" in userData ==> r.avatarURL == userData["avatar_url"]
    ensures "avatar_url" !in userData ==> r.avatarURL == m.avatarURL
  {
    var named := m.(when := now, name := userData["name"]);
    if "avatar_url" in userData then named.(avatarURL := userData["avatar_url"]) else named
  }

  /** Whatever name and time came off the wire, the stamped message is the
      same: only the body and, without an avatar in the cookie, the avatar
      survive from the wire. */
  lemma StampIgnoresWireIdentity(m1: Message, m2: Message, userData: map<string, string>, now: Timestamp)
    requires "name" in userData
    requires m1.body == m2.body
    requires "avatar_url" in userData || m1.avatarURL == m2.avatarURL
    ensures Stamp(m1, userData, now) == Stamp(m2, userData, now)
  {
  }

  /** Stamping is idempotent: a message already stamped with this identity at
      this time is unchanged by another stamp. */
  lemma StampIdempotent(m: Message, userData: map<string, string>, now: Timestamp)
    requires "name" in userData
    ensures Stamp(Stamp(m, userData, now), userData, now) == Stamp(m, userData, now)
  {
  }

  /** How many frames `read` gets through: the messages before the first
      error (all of them if the wire ends first). */
  function ReadCount(wire: seq<Frame>): (n: nat)
    ensures n <= |wire|
    ensures forall i :: 0 <= i < n ==> wire[i].Decoded?
    ensures n < |wire| ==> wire[n] == DecodeError
    decreases |wire|
  {
    if wire == [] || wire[0] == DecodeError then 0 else 1 + ReadCount(wire[1..])
  }

  /** What `read` sends to the room: each decoded message before the first
      error, stamped, in the order it was decoded; the i-th is stamped with
      the i-th reading of the clock. */
  function Forwarded(userData: map<string, string>, wire: seq<Frame>, clock: nat -> Timestamp): (out: seq<Message>)
    requires "name" in userData
    ensures |out| == ReadCount(wire)
  {
    seq(ReadCount(wire), i requires 0 <= i < ReadCount(wire) => Stamp(wire[i].msg, userData, clock(i)))
  }

  /** Nothing after the first error is read: frames appended behind a wire
      that already holds an error change nothing. */
  lemma {:induction false} ReadStopsAtError(wire: seq<Frame>, more: seq<Frame>)
    requires DecodeError in wire
    ensures ReadCount(wire + more) == ReadCount(wire)
    decreases |wire|
  {
    assert (wire + more)[0] == wire[0];
    if wire[0] != DecodeError {
      assert (wire + more)[1..] == wire[1..] + more;
      ReadStopsAtError(wire[1..], more);
    }
  }

  /** The same, for what reaches the room. */
  lemma LaterFramesIgnored(userData: map<string, string>, wire: seq<Frame>, more: seq<Frame>, clock: nat -> Timestamp)
    requires "name" in userData && DecodeError in wire
    ensures Forwarded(userData, wire + more, clock) == Forwarded(userData, wire, clock)
  {
    ReadStopsAtError(wire, more);
    var a := Forwarded(userData, wire + more, clock);
    var b := Forwarded(userData, wire, clock);
    forall i | 0 <= i < |a|
      ensures a[i] == b[i]
    {
      assert (wire + more)[i] == wire[i];
    }
  }

  /** client.read: read, stamp and forward until ReadJSON fails, then close
      the socket (the deferred Close). Returns the messages sent to the room,
      in order. */
  method Read(socket: Socket, userData: map<string, string>, wire: seq<Frame>, clock: nat -> Timestamp)
    returns (forwarded: seq<Message>)
    requires "name" in userData
    modifies socket
    ensures forwarded == Forwarded(userData, wire, clock)
    ensures socket.closes == old(socket.closes) + 1
  {
    forwarded := [];
    var i := 0;
    while i < |wire| && wire[i].Decoded?
      invariant i <= ReadCount(wire)
      invariant forwarded == Forwarded(userData, wire[..i], clock)
      invariant ReadCount(wire[..i]) == i
      invariant socket.closes == old(socket.closes)
      decreases |wire| - i
    {
      var msg := Stamp(wire[i].msg, userData, clock(i));
      ReadPrefix(wire, i);
      forwarded := forwarded + [msg];
      i := i + 1;
    }
    if i < |wire| {
      assert ReadCount(wire) == i;
    } else {
      assert wire[..i] == wire;
    }
    socket.Close();
  }

  /** The prefix of the wire read so far. */
  lemma {:induction false} ReadPrefix(wire: seq<Frame>, i: nat)
    requires i < |wire| && wire[i].Decoded? && ReadCount(wire[..i]) == i
    ensures ReadCount(wire[..i + 1]) == i + 1
    decreases i
  {
    if i > 0 {
      assert wire[..i + 1][1..] == wire[1..][..i];
      assert wire[..i][1..] == wire[1..][..i - 1];
      ReadPrefix(wire[1..], i - 1);
    }
  }

  /** How many writes succeed before the first failure, among `n` attempts
      whose outcomes `ok` gives in order. */
  function FirstFailure(n: nat, ok: nat -> bool): (k: nat)
    ensures k <= n
    ensures forall i :: 0 <= i < k ==> ok(i)
    ensures k < n ==> !ok(k)
    decreases n
  {
    if n == 0 then 0
    else
      var k := FirstFailure(n - 1, ok);
      if k < n - 1 || !ok(n - 1) then k else n
  }

  /** The room with the channel of `c` holding `rest`. */
  function WithQueue(s: ChatRoom.RoomState, c: ClientId, rest: seq<Message>, closed: bool): ChatRoom.RoomState
  {
    s.(mailboxes := s.mailboxes[c := Mailbox(rest, closed)])
  }

  /** A receive on a channel that holds the messages from `i` on: the i-th
      message and the rest behind it, or the end of the channel. */
  lemma ReceiveNext(s0: ChatRoom.RoomState, c: ClientId, q: seq<Message>, closed: bool, i: nat)
    requires i <= |q| && ChatRoom.Inv(WithQueue(s0, c, q[i..], closed))
    ensures i < |q| ==>
      ChatRoom.Received(WithQueue(s0, c, q[i..], closed), c) == (ChatRoom.Got(q[i]), WithQueue(s0, c, q[i + 1..], closed))
    ensures i == |q| ==>
      ChatRoom.Received(WithQueue(s0, c, q[i..], closed), c)
        == (if closed then ChatRoom.ChannelClosed else ChatRoom.WouldBlock, WithQueue(s0, c, q[i..], closed))
  {
    var s := WithQueue(s0, c, q[i..], closed);
    assert s.mailboxes[c] == Mailbox(q[i..], closed);
    if i < |q| {
      assert q[i..][1..] == q[i + 1..];
      assert s.mailboxes[c := Mailbox(q[i + 1..], closed)] == s0.mailboxes[c := Mailbox(q[i + 1..], closed)];
    }
  }

  /** Why `write` stopped: a write failed, or the channel was closed and
      drained (both end the goroutine and close the socket), or the channel is
      empty and still open, so the goroutine waits for more. */
  datatype WriteStop = WriteFailed | MailboxClosed | Blocked

  /** One receive by the writer on a channel that holds the messages of `q`
      from `i` on. */
  method Pull(room: ChatRoom.Room, c: ClientId, ghost s0: ChatRoom.RoomState, ghost q: seq<Message>, ghost closed: bool, ghost i: nat)
    returns (r: ChatRoom.Receipt)
    requires i <= |q| && room.Valid() && room.State() == WithQueue(s0, c, q[i..], closed)
    modifies room
    ensures room.Valid() && room.tracer == old(room.tracer)
    ensures i < |q| ==> r == ChatRoom.Got(q[i]) && room.State() == WithQueue(s0, c, q[i + 1..], closed)
    ensures i == |q| ==>
      && r == (if closed then ChatRoom.ChannelClosed else ChatRoom.WouldBlock)
      && room.State() == WithQueue(s0, c, q[i..], closed)
  {
    ReceiveNext(s0, c, q, closed, i);
    r := room.Receive(c);
  }

  /** What `write` sends and where it stops, for a channel holding `q`,
      closed or not, when `ok(i)` says whether the i-th write succeeds. */
  ghost predicate WriteOutcome(q: seq<Message>, closed: bool, ok: nat -> bool,
                               written: seq<Message>, stop: WriteStop, rest: seq<Message>)
  {
    var k := FirstFailure(|q|, ok);
    && written == q[..k]
    && stop == (if k < |q| then WriteFailed else if closed then MailboxClosed else Blocked)
    && rest == (if k < |q| then q[k + 1..] else [])
  }

  /** The loop of client.write: receive from the channel and write each
      message in turn, until a write fails or the channel is empty. Returns
      what was written and why it stopped; the channel keeps what is left. */
  method Drain(room: ChatRoom.Room, c: ClientId, ok: nat -> bool)
    returns (written: seq<Message>, stop: WriteStop, ghost rest: seq<Message>)
    requires room.Valid() && c in room.mailboxes
    modifies room
    ensures room.Valid() && room.tracer == old(room.tracer)
    ensures WriteOutcome(old(room.mailboxes[c].queue), old(room.mailboxes[c].closed), ok, written, stop, rest)
    ensures room.State() == WithQueue(old(room.State()), c, rest, old(room.mailboxes[c].closed))
  {
    ghost var s0 := room.State();
    ghost var q := room.mailboxes[c].queue;
    ghost var closed := room.mailboxes[c].closed;
    ghost var k := FirstFailure(|q|, ok);
    written := [];
    var i := 0;
    assert q[0..] == q && s0.mailboxes[c := Mailbox(q, closed)] == s0.mailboxes;
    while true
      invariant room.Valid() && room.tracer == old(room.tracer)
      invariant i <= k && written == q[..i]
      invariant room.State() == WithQueue(s0, c, q[i..], closed)
      decreases |q| - i
    {
      var r := Pull(room, c, s0, q, closed, i);
      if r.WouldBlock? || r.ChannelClosed? {
        assert i == k == |q|;
        assert q[..i] == q && q[i..] == [];
        stop := if r.ChannelClosed? then MailboxClosed else Blocked;
        rest := [];
        return;
      }
      if !ok(i) {
        assert i == k < |q|;
        stop := WriteFailed;
        rest := q[i + 1..];
        return;
      }
      assert q[..i + 1] == q[..i] + [q[i]];
      written := written + [r.msg];
      i := i + 1;
    }
  }

  /** client.write, up to the point where it would block: drain the channel,
      writing each message in turn; stop at the first failed write or at the
      end of a closed channel, closing the socket. `ok(i)` says whether the
      i-th write succeeds. */
  method Write(room: ChatRoom.Room, c: ClientId, socket: Socket, ok: nat -> bool)
    returns (written: seq<Message>, stop: WriteStop)
    requires room.Valid() && c in room.mailboxes
    modifies room, socket
    ensures room.Valid() && room.tracer == old(room.tracer)
    ensures
      var q := old(room.mailboxes[c].queue);
      var closed := old(room.mailboxes[c].closed);
      var k := FirstFailure(|q|, ok);
      && written == q[..k]
      && stop == (if k < |q| then WriteFailed else if closed then MailboxClosed else Blocked)
      && room.State() == WithQueue(old(room.State()), c, if k < |q| then q[k + 1..] else [], closed)
    ensures socket.closes == old(socket.closes) + (if stop == Blocked then 0 else 1)
  {
    ghost var rest;
    written, stop, rest := Drain(room, c, ok);
    if stop != Blocked {
      socket.Close();
    }
  }
}
