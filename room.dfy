/** The chat room (chat/room.go): the single loop that owns the set of
    connected clients and hands every incoming message to each of their
    mailboxes. The `select` over the join, leave and forward channels becomes
    a sequential state machine in which the caller picks the next event; a
    send that would block on a full mailbox becomes a precondition. */
module ChatRoom {
  import opened Messages
  import Trace

  /** One iteration of `run` handles one of these. */
  datatype Event = Join(client: ClientId) | Leave(client: ClientId) | Forward(msg: Message)

  /** The state the room loop works on: the clients in the room, the `send`
      channel of every client that has joined (members and departed ones),
      and the arguments of every Trace call the room has made, in order. */
  datatype RoomState = RoomState(
    members: set<ClientId>,
    mailboxes: map<ClientId, Mailbox>,
    traceLog: seq<seq<string>>)

  /** What a receive on a client's channel yields: the oldest buffered
      message, the end of a closed and drained channel, or nothing yet. */
  datatype Receipt = Got(msg: Message) | ChannelClosed | WouldBlock

  const JoinTrace: seq<string> := ["New client joined"]
  const LeaveTrace: seq<string> := ["Client left"]
  const SendTrace: seq<string> := [" -- send to client"]

  /** The trace made when a message arrives (the misspelling is the source's). */
  function ReceivedTrace(m: Message): seq<string>
  {
    ["Message recieved", m.body]
  }

  /** `n` copies of `x`. */
  function Repeat<T>(x: T, n: nat): (r: seq<T>)
    ensures |r| == n && forall i :: 0 <= i < n ==> r[i] == x
  {
    seq(n, _ => x)
  }

  lemma RepeatOneMore<T>(x: T, n: nat)
    ensures Repeat(x, n + 1) == Repeat(x, n) + [x]
  {
  }

  /** The room's invariant: every member's channel exists and is open (leave
      removes the member and closes the channel in one step, so a send from
      the loop never meets a closed channel), and no channel holds more than
      messageBufferSize messages. */
  ghost predicate Inv(s: RoomState)
  {
    && (forall c :: c in s.members ==> c in s.mailboxes && !s.mailboxes[c].closed)
    && (forall c :: c in s.mailboxes ==> |s.mailboxes[c].queue| <= MessageBufferSize)
  }

  /** Every member's channel has a free slot, so a forward does not block. */
  ghost predicate HasRoom(s: RoomState)
  {
    forall c :: c in s.members && c in s.mailboxes ==> |s.mailboxes[c].queue| < MessageBufferSize
  }

  /** `c.send <- m`. */
  function Push(b: Mailbox, m: Message): Mailbox
  {
    Mailbox(b.queue + [m], b.closed)
  }

  /** The join arm: `c` enters the room. The client arrives with the fresh,
      empty channel the acceptor made for it. */
  function Joined(s: RoomState, c: ClientId): (r: RoomState)
    requires Inv(s) && c !in s.mailboxes
    ensures Inv(r)
    ensures c !in s.members && r.members == s.members + {c}
    ensures r.mailboxes.Keys == s.mailboxes.Keys + {c} && r.mailboxes[c] == EmptyMailbox
    ensures forall d :: d in s.mailboxes ==> r.mailboxes[d] == s.mailboxes[d]
    ensures r.traceLog == s.traceLog + [JoinTrace]
  {
    RoomState(s.members + {c}, s.mailboxes[c := EmptyMailbox], s.traceLog + [JoinTrace])
  }

  /** The leave arm: `c` is removed and its channel closed. What is still
      buffered in it stays there for the client's writer to drain. */
  function Left(s: RoomState, c: ClientId): (r: RoomState)
    requires Inv(s) && c in s.members
    ensures Inv(r)
    ensures r.members == s.members - {c} && c !in r.members
    ensures r.mailboxes.Keys == s.mailboxes.Keys
    ensures r.mailboxes[c] == Mailbox(s.mailboxes[c].queue, true) && !s.mailboxes[c].closed
    ensures forall d :: d in s.mailboxes && d != c ==> r.mailboxes[d] == s.mailboxes[d]
    ensures r.traceLog == s.traceLog + [LeaveTrace]
  {
    var b := s.mailboxes[c];
    RoomState(s.members - {c}, s.mailboxes[c := Mailbox(b.queue, true)], s.traceLog + [LeaveTrace])
  }

  /** The forward arm: `m` goes to the end of every member's channel and of
      no other; one trace for the arrival, then one per member. */
  function Forwarded(s: RoomState, m: Message): (r: RoomState)
    requires Inv(s) && HasRoom(s)
    ensures Inv(r)
    ensures r.members == s.members && r.mailboxes.Keys == s.mailboxes.Keys
    ensures forall c :: c in s.mailboxes ==>
      && r.mailboxes[c].closed == s.mailboxes[c].closed
      && r.mailboxes[c].queue == s.mailboxes[c].queue + (if c in s.members then [m] else [])
    ensures |r.traceLog| == |s.traceLog| + 1 + |s.members|
    ensures r.traceLog[..|s.traceLog| + 1] == s.traceLog + [ReceivedTrace(m)]
    ensures forall i :: |s.traceLog| < i < |r.traceLog| ==> r.traceLog[i] == SendTrace
  {
    RoomState(s.members, SentTo(s.mailboxes, s.members, m), s.traceLog + ([ReceivedTrace(m)] + Repeat(SendTrace, |s.members|)))
  }

  /** The channels after `m` has been sent to the clients in `done`. */
  function SentTo(boxes: map<ClientId, Mailbox>, done: set<ClientId>, m: Message): (sent: map<ClientId, Mailbox>)
    ensures sent.Keys == boxes.Keys
    ensures forall c :: c in boxes ==> sent[c].closed == boxes[c].closed
    ensures forall c :: c in boxes && c in done ==> sent[c].queue == boxes[c].queue + [m]
    ensures forall c :: c in boxes && c !in done ==> sent[c] == boxes[c]
  {
    map c | c in boxes :: if c in done then Push(boxes[c], m) else boxes[c]
  }

  /** Sending to one more client. */
  lemma SendOneMore(boxes: map<ClientId, Mailbox>, done: set<ClientId>, c: ClientId, m: Message)
    requires c in boxes && c !in done
    ensures SentTo(boxes, done, m)[c := Push(SentTo(boxes, done, m)[c], m)] == SentTo(boxes, done + {c}, m)
  {
  }

  /** A receive on the channel of `c`, as the client's writer does it. */
  function Received(s: RoomState, c: ClientId): (r: (Receipt, RoomState))
    requires Inv(s) && c in s.mailboxes
    ensures Inv(r.1) && r.1.members == s.members && r.1.traceLog == s.traceLog
    ensures r.1.mailboxes.Keys == s.mailboxes.Keys
    ensures forall d :: d in s.mailboxes && d != c ==> r.1.mailboxes[d] == s.mailboxes[d]
    ensures s.mailboxes[c].queue != [] ==>
      && r.0 == Got(s.mailboxes[c].queue[0])
      && r.1.mailboxes[c] == Mailbox(s.mailboxes[c].queue[1..], s.mailboxes[c].closed)
    ensures s.mailboxes[c].queue == [] ==>
      && r.1 == s
      && r.0 == (if s.mailboxes[c].closed then ChannelClosed else WouldBlock)
  {
    var b := s.mailboxes[c];
    if b.queue != [] then (Got(b.queue[0]), s.(mailboxes := s.mailboxes[c := Mailbox(b.queue[1..], b.closed)]))
    else if b.closed then (ChannelClosed, s)
    else (WouldBlock, s)
  }

  /** When the loop can take event `e` without blocking and without breaking
      the contract of its senders: a joining client is new, a leaving client
      has not left yet, and a forwarded message fits into every mailbox. */
  ghost predicate Enabled(s: RoomState, e: Event)
  {
    match e
    case Join(c) => c !in s.mailboxes
    case Leave(c) => c in s.members
    case Forward(_) => HasRoom(s)
  }

  /** One iteration of `run`. Every event adds to the trace and nothing that
      was traced before changes. */
  function Step(s: RoomState, e: Event): (r: RoomState)
    requires Inv(s) && Enabled(s, e)
    ensures Inv(r)
    ensures |r.traceLog| > |s.traceLog| && r.traceLog[..|s.traceLog|] == s.traceLog
  {
    match e
    case Join(c) => Joined(s, c)
    case Leave(c) => Left(s, c)
    case Forward(m) => Forwarded(s, m)
  }

  /** Every event of `evs` is enabled when its turn comes. */
  ghost predicate Runnable(s: RoomState, evs: seq<Event>)
    requires Inv(s)
    decreases |evs|
  {
    evs == [] || (Enabled(s, evs[0]) && Runnable(Step(s, evs[0]), evs[1..]))
  }

  /** The loop run over the events `evs`, in order. */
  function Run(s: RoomState, evs: seq<Event>): (r: RoomState)
    requires Inv(s) && Runnable(s, evs)
    ensures Inv(r)
    ensures |r.traceLog| >= |s.traceLog| && r.traceLog[..|s.traceLog|] == s.traceLog
    decreases |evs|
  {
    if evs == [] then s else Run(Step(s, evs[0]), evs[1..])
  }

  /** A run that is not empty starts with a step that is enabled. */
  lemma RunFirst(s: RoomState, evs: seq<Event>)
    requires Inv(s) && Runnable(s, evs) && evs != []
    ensures Enabled(s, evs[0]) && Runnable(Step(s, evs[0]), evs[1..])
    ensures Run(s, evs) == Run(Step(s, evs[0]), evs[1..])
  {
  }

  /** The messages buffered for `c` (none for a client the room never saw). */
  function QueueOf(s: RoomState, c: ClientId): seq<Message>
  {
    if c in s.mailboxes then s.mailboxes[c].queue else []
  }

  /** Whether `c` is a member after event `e`, given whether it was before. */
  function MemberAfter(c: ClientId, e: Event, member: bool): bool
  {
    match e
    case Join(d) => member || d == c
    case Leave(d) => member && d != c
    case Forward(_) => member
  }

  /** What event `e` owes to `c`: a forwarded message, if `c` is a member. */
  function Owed(c: ClientId, e: Event, member: bool): seq<Message>
  {
    if e.Forward? && member then [e.msg] else []
  }

  /** The reference definition of delivery: walking the events in order,
      `c` is owed exactly the messages forwarded while it is a member. */
  function Inbox(c: ClientId, evs: seq<Event>, member: bool): seq<Message>
    decreases |evs|
  {
    if evs == [] then []
    else Owed(c, evs[0], member) + Inbox(c, evs[1..], MemberAfter(c, evs[0], member))
  }

  /** What one step does to the channel and the membership of `c`. */
  lemma StepFor(s: RoomState, e: Event, c: ClientId)
    requires Inv(s) && Enabled(s, e)
    ensures QueueOf(Step(s, e), c) == QueueOf(s, c) + Owed(c, e, c in s.members)
    ensures c in Step(s, e).members <==> MemberAfter(c, e, c in s.members)
  {
    match e
    case Join(d) =>
    case Leave(d) =>
    case Forward(m) =>
  }

  lemma SeqAssoc<T>(a: seq<T>, b: seq<T>, d: seq<T>)
    ensures (a + b) + d == a + (b + d)
  {
  }

  lemma SliceAppend<T>(a: seq<T>, b: seq<T>)
    ensures (a + b)[|a|..] == b
  {
  }

  /** Fan-out correctness: after any run, the channel of every client holds
      what it held before followed by exactly the messages forwarded while
      it was a member, once each and in the order the loop took them. */
  lemma {:induction false} FanOut(s: RoomState, evs: seq<Event>, c: ClientId)
    requires Inv(s) && Runnable(s, evs)
    ensures QueueOf(Run(s, evs), c) == QueueOf(s, c) + Inbox(c, evs, c in s.members)
    decreases |evs|
  {
    if evs != [] {
      var s' := Step(s, evs[0]);
      var m := c in s.members;
      assert Run(s, evs) == Run(s', evs[1..]);
      assert Inbox(c, evs, m) == Owed(c, evs[0], m) + Inbox(c, evs[1..], MemberAfter(c, evs[0], m));
      StepFor(s, evs[0], c);
      FanOut(s', evs[1..], c);
      SeqAssoc(QueueOf(s, c), Owed(c, evs[0], m), Inbox(c, evs[1..], MemberAfter(c, evs[0], m)));
    }
  }

  /** No delivery after departure: a client that has left can never rejoin,
      and its channel never receives another message. */
  lemma {:induction false} DepartedReceivesNothing(s: RoomState, evs: seq<Event>, c: ClientId)
    requires Inv(s) && Runnable(s, evs)
    requires c in s.mailboxes && c !in s.members
    ensures c in Run(s, evs).mailboxes && c !in Run(s, evs).members
    ensures Run(s, evs).mailboxes[c] == s.mailboxes[c]
    decreases |evs|
  {
    if evs != [] {
      var s' := Step(s, evs[0]);
      assert c in s'.mailboxes && c !in s'.members && s'.mailboxes[c] == s.mailboxes[c];
      DepartedReceivesNothing(s', evs[1..], c);
    }
  }

  /** No delivery before arrival: messages forwarded before a client joins are
      not owed to it. */
  lemma {:induction false} LateJoinerMissesEarlier(c: ClientId, before: seq<Event>, after: seq<Event>)
    requires forall i :: 0 <= i < |before| ==> before[i] != Join(c)
    ensures Inbox(c, before + after, false) == Inbox(c, after, false)
    decreases |before|
  {
    if before == [] {
      assert before + after == after;
    } else {
      assert (before + after)[0] == before[0];
      assert (before + after)[1..] == before[1..] + after;
      LateJoinerMissesEarlier(c, before[1..], after);
    }
  }

  /** Whether `c` is a member once the events `evs` have been taken. */
  function MemberAt(c: ClientId, evs: seq<Event>, member: bool): bool
    decreases |evs|
  {
    if evs == [] then member else MemberAt(c, evs[1..], MemberAfter(c, evs[0], member))
  }

  /** Membership follows the joins and leaves of `c`, and nothing else. */
  lemma {:induction false} Membership(s: RoomState, evs: seq<Event>, c: ClientId)
    requires Inv(s) && Runnable(s, evs)
    ensures c in Run(s, evs).members <==> MemberAt(c, evs, c in s.members)
    decreases |evs|
  {
    if evs != [] {
      var s' := Step(s, evs[0]);
      assert Run(s, evs) == Run(s', evs[1..]);
      StepFor(s, evs[0], c);
      Membership(s', evs[1..], c);
    }
  }

  /** The contract the room's senders keep, written over the events alone:
      a client joins once, with an identity the room has not seen; only a
      member leaves; and at most `budget` messages are forwarded. */
  ghost predicate Admissible(evs: seq<Event>, seen: set<ClientId>, members: set<ClientId>, budget: nat)
    decreases |evs|
  {
    evs == [] ||
    match evs[0]
    case Join(c) => c !in seen && Admissible(evs[1..], seen + {c}, members + {c}, budget)
    case Leave(c) => c in members && Admissible(evs[1..], seen, members - {c}, budget)
    case Forward(_) => budget > 0 && Admissible(evs[1..], seen, members, budget - 1)
  }

  /** The budget left after event `e`: a forward uses up one message. */
  function Spent(e: Event, budget: nat): nat
  {
    if e.Forward? && budget > 0 then budget - 1 else budget
  }

  /** The first admissible event is enabled, and the contract carries over to
      the state after it. */
  lemma AdmissibleStep(s: RoomState, evs: seq<Event>, budget: nat)
    requires Inv(s) && budget <= MessageBufferSize && evs != []
    requires forall c :: c in s.members ==> |s.mailboxes[c].queue| + budget <= MessageBufferSize
    requires Admissible(evs, s.mailboxes.Keys, s.members, budget)
    ensures Enabled(s, evs[0])
    ensures forall c :: c in Step(s, evs[0]).members ==>
      |Step(s, evs[0]).mailboxes[c].queue| + Spent(evs[0], budget) <= MessageBufferSize
    ensures Admissible(evs[1..], Step(s, evs[0]).mailboxes.Keys, Step(s, evs[0]).members, Spent(evs[0], budget))
  {
    match evs[0]
    case Join(c) =>
    case Leave(c) =>
    case Forward(m) =>
  }

  /** Events that keep that contract never make the loop block: when every
      member's channel has room for `budget` more messages and at most
      `budget` are forwarded, every event is enabled when its turn comes.
      (Channels of departed clients never receive again, so they need no
      room.) */
  lemma {:induction false} AdmissibleRunnable(s: RoomState, evs: seq<Event>, budget: nat)
    requires Inv(s) && budget <= MessageBufferSize
    requires forall c :: c in s.members ==> |s.mailboxes[c].queue| + budget <= MessageBufferSize
    requires Admissible(evs, s.mailboxes.Keys, s.members, budget)
    ensures Runnable(s, evs)
    decreases |evs|
  {
    if evs != [] {
      AdmissibleStep(s, evs, budget);
      AdmissibleRunnable(Step(s, evs[0]), evs[1..], Spent(evs[0], budget));
    }
  }

  lemma PrintedOneMoreSend(n: nat)
    ensures Trace.Printed(Repeat(SendTrace, n + 1)) == Trace.Printed(Repeat(SendTrace, n)) + Trace.Line(SendTrace)
  {
    RepeatOneMore(SendTrace, n);
    Trace.PrintedAppend(Repeat(SendTrace, n), [SendTrace]);
    Trace.PrintedOne(SendTrace);
  }

  /** The writer's text after one more send, given what it held before. */
  lemma WrittenOneMoreSend(text0: string, n: nat)
    ensures text0 + Trace.Printed(Repeat(SendTrace, n + 1)) == (text0 + Trace.Printed(Repeat(SendTrace, n))) + Trace.Line(SendTrace)
  {
    PrintedOneMoreSend(n);
    SeqAssoc(text0, Trace.Printed(Repeat(SendTrace, n)), Trace.Line(SendTrace));
  }

  /** The `for client := range r.clients` loop of the forward arm: send `m`
      to each member in turn, in whatever order the map yields them, and
      trace each send. */
  method SendToEach(tracer: Trace.Tracer, boxes: map<ClientId, Mailbox>, members: set<ClientId>, m: Message)
    returns (sent: map<ClientId, Mailbox>)
    requires members <= boxes.Keys
    modifies tracer.out
    ensures sent == SentTo(boxes, members, m)
    ensures tracer.out != null ==>
      tracer.out.text == old(tracer.out.text) + Trace.Printed(Repeat(SendTrace, |members|))
  {
    sent := boxes;
    var pending := members;
    ghost var done: set<ClientId> := {};
    ghost var n := 0;
    ghost var text0 := if tracer.out != null then tracer.out.text else "";
    while pending != {}
      invariant done !! pending && done + pending == members
      invariant sent == SentTo(boxes, done, m)
      invariant n + |pending| == |members|
      invariant tracer.out != null ==> tracer.out.text == text0 + Trace.Printed(Repeat(SendTrace, n))
      decreases pending
    {
      var c :| c in pending;
      SendOneMore(boxes, done, c, m);
      sent := sent[c := Push(sent[c], m)];
      tracer.Trace(SendTrace);
      WrittenOneMoreSend(text0, n);
      n := n + 1;
      done := done + {c};
      pending := pending - {c};
    }
  }

  /** The room. `clients`, the channels and the tracer are the fields of
      `room`; the channels live with their clients in the source and are kept
      here, keyed by client. `traceLog` records the room's Trace calls. */
  class Room {
    var clients: set<ClientId>
    var mailboxes: map<ClientId, Mailbox>
    var tracer: Trace.Tracer
    ghost var traceLog: seq<seq<string>>

    ghost function State(): RoomState
      reads this
    {
      RoomState(clients, mailboxes, traceLog)
    }

    ghost predicate Valid()
      reads this
    {
      Inv(State())
    }

    /** newRoom: nobody in the room and tracing off. */
    constructor ()
      ensures Valid() && State() == RoomState({}, map[], [])
      ensures fresh(tracer) && tracer.out == null
    {
      clients := {};
      mailboxes := map[];
      tracer := new Trace.Tracer.Off();
      traceLog := [];
    }

    /** The join arm of `run`. */
    method Join(c: ClientId)
      requires Valid() && c !in mailboxes
      modifies this, tracer.out
      ensures Valid() && State() == Joined(old(State()), c) && tracer == old(tracer)
      ensures tracer.out != null ==>
        tracer.out.text == old(tracer.out.text) + Trace.Printed(traceLog[|old(traceLog)|..])
    {
      clients := clients + {c};
      mailboxes := mailboxes[c := EmptyMailbox];
      tracer.Trace(JoinTrace);
      traceLog := traceLog + [JoinTrace];
      assert traceLog[|old(traceLog)|..] == [JoinTrace];
      Trace.PrintedOne(JoinTrace);
    }

    /** The leave arm of `run`: delete from the map, then close the channel. */
    method Leave(c: ClientId)
      requires Valid() && c in clients
      modifies this, tracer.out
      ensures Valid() && State() == Left(old(State()), c) && tracer == old(tracer)
      ensures tracer.out != null ==>
        tracer.out.text == old(tracer.out.text) + Trace.Printed(traceLog[|old(traceLog)|..])
    {
      clients := clients - {c};
      mailboxes := mailboxes[c := Mailbox(mailboxes[c].queue, true)];
      tracer.Trace(LeaveTrace);
      traceLog := traceLog + [LeaveTrace];
      assert traceLog[|old(traceLog)|..] == [LeaveTrace];
      Trace.PrintedOne(LeaveTrace);
    }

    /** The forward arm of `run`: trace the arrival, then send to each client
        in turn (in whatever order the map yields them), tracing each send. */
    method Forward(msg: Message)
      requires Valid() && HasRoom(State())
      modifies this, tracer.out
      ensures Valid() && State() == Forwarded(old(State()), msg) && tracer == old(tracer)
      ensures tracer.out != null ==>
        tracer.out.text == old(tracer.out.text) + Trace.Printed(traceLog[|old(traceLog)|..])
    {
      ghost var s0 := State();
      ghost var text0 := if tracer.out != null then tracer.out.text else "";
      ghost var added := [ReceivedTrace(msg)] + Repeat(SendTrace, |clients|);
      tracer.Trace(ReceivedTrace(msg));
      var boxes := SendToEach(tracer, mailboxes, clients, msg);
      mailboxes := boxes;
      traceLog := traceLog + added;
      assert State() == RoomState(s0.members, SentTo(s0.mailboxes, s0.members, msg), s0.traceLog + added);
      SliceAppend(s0.traceLog, added);
      Trace.PrintedOne(ReceivedTrace(msg));
      Trace.PrintedAppend([ReceivedTrace(msg)], Repeat(SendTrace, |clients|));
      if tracer.out != null {
        SeqAssoc(text0, Trace.Line(ReceivedTrace(msg)), Trace.Printed(Repeat(SendTrace, |clients|)));
      }
    }

    /** A receive on the channel of `c`, by that client's writer. */
    method Receive(c: ClientId) returns (r: Receipt)
      requires Valid() && c in mailboxes
      modifies this
      ensures Valid() && (r, State()) == Received(old(State()), c) && tracer == old(tracer)
    {
      var b := mailboxes[c];
      if b.queue != [] {
        r := Got(b.queue[0]);
        mailboxes := mailboxes[c := Mailbox(b.queue[1..], b.closed)];
      } else if b.closed {
        r := ChannelClosed;
      } else {
        r := WouldBlock;
      }
    }

    /** One iteration of `run`: the `select` takes event `e`. */
    method Handle(e: Event)
      requires Valid() && Enabled(State(), e)
      modifies this, tracer.out
      ensures Valid() && State() == Step(old(State()), e) && tracer == old(tracer)
      ensures tracer.out != null ==>
        tracer.out.text == old(tracer.out.text) + Trace.Printed(traceLog[|old(traceLog)|..])
    {
      match e
      case Join(c) => Join(c);
      case Leave(c) => Leave(c);
      case Forward(m) => Forward(m);
    }

    /** `run`, fed the events `evs` in the order the caller chooses. */
    method RunEvents(evs: seq<Event>)
      requires Valid() && Runnable(State(), evs)
      modifies this, tracer.out
      ensures Valid() && State() == Run(old(State()), evs) && tracer == old(tracer)
      ensures tracer.out != null ==>
        tracer.out.text == old(tracer.out.text) + Trace.Printed(traceLog[|old(traceLog)|..])
    {
      ghost var goal := Run(State(), evs);
      ghost var log0 := traceLog;
      ghost var text0 := if tracer.out != null then tracer.out.text else "";
      var rest := evs;
      ghost var emitted: seq<seq<string>> := [];
      while rest != []
        invariant Valid() && tracer == old(tracer)
        invariant Runnable(State(), rest) && goal == Run(State(), rest)
        invariant traceLog == log0 + emitted
        invariant tracer.out != null ==> tracer.out.text == text0 + Trace.Printed(emitted)
        decreases |rest|
      {
        RunFirst(State(), rest);
        ghost var before := traceLog;
        Handle(rest[0]);
        ghost var added := traceLog[|before|..];
        assert traceLog == before + added;
        SeqAssoc(log0, emitted, added);
        Trace.PrintedAppend(emitted, added);
        if tracer.out != null {
          SeqAssoc(text0, Trace.Printed(emitted), Trace.Printed(added));
        }
        emitted := emitted + added;
        rest := rest[1..];
      }
      assert traceLog[|log0|..] == emitted;
    }
  }

  /** Three clients, as events: A and B join, A says "hi", C joins, A says
      "yo", B drops out, A says "bye". */
  function Scenario(a: ClientId, b: ClientId, c: ClientId, hi: Message, yo: Message, bye: Message): seq<Event>
  {
    [Join(a), Join(b), Forward(hi), Join(c), Forward(yo), Leave(b), Forward(bye)]
  }

  /** The scenario keeps the senders' contract, with three messages to spare. */
  lemma ScenarioAdmissible(a: ClientId, b: ClientId, c: ClientId, hi: Message, yo: Message, bye: Message)
    requires a != b && b != c && a != c
    ensures Admissible(Scenario(a, b, c, hi, yo, bye), {}, {}, 3)
  {
    var t6 := [Forward(bye)];
    var t5 := [Leave(b)] + t6;
    var t4 := [Forward(yo)] + t5;
    var t3 := [Join(c)] + t4;
    var t2 := [Forward(hi)] + t3;
    var t1 := [Join(b)] + t2;
    var t0 := [Join(a)] + t1;
    assert Scenario(a, b, c, hi, yo, bye) == t0;
    assert t6[0] == Forward(bye) && t6[1..] == [];
    assert t5[0] == Leave(b) && t5[1..] == t6;
    assert t4[0] == Forward(yo) && t4[1..] == t5;
    assert t3[0] == Join(c) && t3[1..] == t4;
    assert t2[0] == Forward(hi) && t2[1..] == t3;
    assert t1[0] == Join(b) && t1[1..] == t2;
    assert t0[0] == Join(a) && t0[1..] == t1;
    assert Admissible(t6, {a, b, c}, {a, c}, 1);
    assert {a, b, c} - {b} == {a, c};
    assert Admissible(t5, {a, b, c}, {a, b, c}, 1);
    assert Admissible(t4, {a, b, c}, {a, b, c}, 2);
    assert {a, b} + {c} == {a, b, c};
    assert Admissible(t3, {a, b}, {a, b}, 2);
    assert Admissible(t2, {a, b}, {a, b}, 3);
    assert {a} + {b} == {a, b};
    assert Admissible(t1, {a}, {a}, 3);
    assert {} + {a} == {a};
  }

  /** Who is owed what in that run: A, there throughout, is owed all three
      messages; B, gone before "bye", the first two; C, joined after "hi",
      the last two. */
  lemma ScenarioDelivery(a: ClientId, b: ClientId, c: ClientId, hi: Message, yo: Message, bye: Message)
    requires a != b && b != c && a != c
    ensures Inbox(a, Scenario(a, b, c, hi, yo, bye), false) == [hi, yo, bye]
    ensures Inbox(b, Scenario(a, b, c, hi, yo, bye), false) == [hi, yo]
    ensures Inbox(c, Scenario(a, b, c, hi, yo, bye), false) == [yo, bye]
  {
    var t6 := [Forward(bye)];
    var t5 := [Leave(b)] + t6;
    var t4 := [Forward(yo)] + t5;
    var t3 := [Join(c)] + t4;
    var t2 := [Forward(hi)] + t3;
    var t1 := [Join(b)] + t2;
    var t0 := [Join(a)] + t1;
    assert Scenario(a, b, c, hi, yo, bye) == t0;
    InboxOfFirst(a, b, c, hi, yo, bye, t0, t1, t2, t3, t4, t5, t6);
    InboxOfSecond(a, b, c, hi, yo, bye, t0, t1, t2, t3, t4, t5, t6);
    InboxOfThird(a, b, c, hi, yo, bye, t0, t1, t2, t3, t4, t5, t6);
  }

  /** Delivery over an event list given as its first event and the rest. */
  lemma InboxCons(c: ClientId, e: Event, t: seq<Event>, member: bool)
    ensures Inbox(c, [e] + t, member) == Owed(c, e, member) + Inbox(c, t, MemberAfter(c, e, member))
  {
    assert ([e] + t)[0] == e;
    assert ([e] + t)[1..] == t;
  }

  lemma InboxOfFirst(a: ClientId, b: ClientId, c: ClientId, hi: Message, yo: Message, bye: Message,
                     t0: seq<Event>, t1: seq<Event>, t2: seq<Event>, t3: seq<Event>, t4: seq<Event>, t5: seq<Event>, t6: seq<Event>)
    requires a != b && b != c && a != c
    requires t6 == [Forward(bye)] && t5 == [Leave(b)] + t6 && t4 == [Forward(yo)] + t5 && t3 == [Join(c)] + t4
    requires t2 == [Forward(hi)] + t3 && t1 == [Join(b)] + t2 && t0 == [Join(a)] + t1
    ensures Inbox(a, t0, false) == [hi, yo, bye]
  {
    InboxCons(a, Forward(bye), [], true);
    assert Inbox(a, t6, true) == [bye];
    InboxCons(a, Leave(b), t6, true);
    InboxCons(a, Forward(yo), t5, true);
    assert Inbox(a, t4, true) == [yo, bye];
    InboxCons(a, Join(c), t4, true);
    InboxCons(a, Forward(hi), t3, true);
    assert Inbox(a, t2, true) == [hi, yo, bye];
    InboxCons(a, Join(b), t2, true);
    InboxCons(a, Join(a), t1, false);
  }

  lemma InboxOfSecond(a: ClientId, b: ClientId, c: ClientId, hi: Message, yo: Message, bye: Message,
                      t0: seq<Event>, t1: seq<Event>, t2: seq<Event>, t3: seq<Event>, t4: seq<Event>, t5: seq<Event>, t6: seq<Event>)
    requires a != b && b != c && a != c
    requires t6 == [Forward(bye)] && t5 == [Leave(b)] + t6 && t4 == [Forward(yo)] + t5 && t3 == [Join(c)] + t4
    requires t2 == [Forward(hi)] + t3 && t1 == [Join(b)] + t2 && t0 == [Join(a)] + t1
    ensures Inbox(b, t0, false) == [hi, yo]
  {
    InboxCons(b, Forward(bye), [], false);
    assert Inbox(b, t6, false) == [];
    InboxCons(b, Leave(b), t6, true);
    InboxCons(b, Forward(yo), t5, true);
    assert Inbox(b, t4, true) == [yo];
    InboxCons(b, Join(c), t4, true);
    InboxCons(b, Forward(hi), t3, true);
    assert Inbox(b, t2, true) == [hi, yo];
    InboxCons(b, Join(b), t2, false);
    InboxCons(b, Join(a), t1, false);
  }

  lemma InboxOfThird(a: ClientId, b: ClientId, c: ClientId, hi: Message, yo: Message, bye: Message,
                     t0: seq<Event>, t1: seq<Event>, t2: seq<Event>, t3: seq<Event>, t4: seq<Event>, t5: seq<Event>, t6: seq<Event>)
    requires a != b && b != c && a != c
    requires t6 == [Forward(bye)] && t5 == [Leave(b)] + t6 && t4 == [Forward(yo)] + t5 && t3 == [Join(c)] + t4
    requires t2 == [Forward(hi)] + t3 && t1 == [Join(b)] + t2 && t0 == [Join(a)] + t1
    ensures Inbox(c, t0, false) == [yo, bye]
  {
    InboxCons(c, Forward(bye), [], true);
    assert Inbox(c, t6, true) == [bye];
    InboxCons(c, Leave(b), t6, true);
    InboxCons(c, Forward(yo), t5, true);
    assert Inbox(c, t4, true) == [yo, bye];
    InboxCons(c, Join(c), t4, false);
    InboxCons(c, Forward(hi), t3, false);
    InboxCons(c, Join(b), t2, false);
    InboxCons(c, Join(a), t1, false);
  }

  /** After the scenario A and C are in the room and B is not. */
  lemma ScenarioMembers(a: ClientId, b: ClientId, c: ClientId, hi: Message, yo: Message, bye: Message)
    requires a != b && b != c && a != c
    ensures MemberAt(a, Scenario(a, b, c, hi, yo, bye), false)
    ensures MemberAt(c, Scenario(a, b, c, hi, yo, bye), false)
    ensures !MemberAt(b, Scenario(a, b, c, hi, yo, bye), false)
  {
    var t6 := [Forward(bye)];
    var t5 := [Leave(b)] + t6;
    var t4 := [Forward(yo)] + t5;
    var t3 := [Join(c)] + t4;
    var t2 := [Forward(hi)] + t3;
    var t1 := [Join(b)] + t2;
    var t0 := [Join(a)] + t1;
    assert Scenario(a, b, c, hi, yo, bye) == t0;
    assert t6[0] == Forward(bye) && t6[1..] == [];
    assert t5[0] == Leave(b) && t5[1..] == t6;
    assert t4[0] == Forward(yo) && t4[1..] == t5;
    assert t3[0] == Join(c) && t3[1..] == t4;
    assert t2[0] == Forward(hi) && t2[1..] == t3;
    assert t1[0] == Join(b) && t1[1..] == t2;
    assert t0[0] == Join(a) && t0[1..] == t1;
    assert MemberAt(a, t6, true) && MemberAt(c, t6, true) && !MemberAt(b, t6, false);
    assert MemberAt(a, t5, true) && MemberAt(c, t5, true) && !MemberAt(b, t5, true);
    assert MemberAt(a, t4, true) && MemberAt(c, t4, true) && !MemberAt(b, t4, true);
    assert MemberAt(a, t3, true) && MemberAt(c, t3, false) && !MemberAt(b, t3, true);
    assert MemberAt(a, t2, true) && MemberAt(c, t2, false) && !MemberAt(b, t2, true);
    assert MemberAt(a, t1, true) && MemberAt(c, t1, false) && !MemberAt(b, t1, false);
  }

  /** The three-client run played on a fresh room: A's channel ends up
      holding "hi", "yo" and "bye", B's "hi" and "yo", C's "yo" and "bye", and
      only A and C remain. */
  method ThreeClientScenario(a: ClientId, b: ClientId, c: ClientId, hi: Message, yo: Message, bye: Message)
    returns (toA: seq<Message>, toB: seq<Message>, toC: seq<Message>, members: set<ClientId>)
    requires a != b && b != c && a != c
    ensures toA == [hi, yo, bye] && toB == [hi, yo] && toC == [yo, bye]
    ensures a in members && c in members && b !in members
  {
    var room := new Room();
    var evs := Scenario(a, b, c, hi, yo, bye);
    ghost var s0 := room.State();
    assert s0.mailboxes.Keys == {} && s0.members == {};
    ScenarioAdmissible(a, b, c, hi, yo, bye);
    ScenarioDelivery(a, b, c, hi, yo, bye);
    ScenarioMembers(a, b, c, hi, yo, bye);
    AdmissibleRunnable(s0, evs, 3);
    room.RunEvents(evs);
    FanOut(s0, evs, a);
    FanOut(s0, evs, b);
    FanOut(s0, evs, c);
    Membership(s0, evs, a);
    Membership(s0, evs, b);
    Membership(s0, evs, c);
    assert QueueOf(room.State(), a) == [hi, yo, bye] && QueueOf(room.State(), b) == [hi, yo];
    assert QueueOf(room.State(), c) == [yo, bye];
    toA, toB, toC := room.mailboxes[a].queue, room.mailboxes[b].queue, room.mailboxes[c].queue;
    members := room.clients;
  }
}
