/** The log relay of api-server/index.js: a socket.io server whose clients
    join rooms with a `subscribe` event, and a bus subscriber on the pattern
    `logs:*` that forwards every message to the room named by its channel.

    A connection is a number; the room registry maps a room name to its
    members; every connection has an inbox of the `message` events it has
    been sent, in order. */
module LogRelay {

  type Conn = nat

  /** What reaches the relay: a client's `subscribe` event, or a publication
      on the bus (which the relay sees only when the pattern matches). */
  datatype Event =
    | Subscribe(conn: Conn, channel: string)
    | BusPublish(channel: string, message: string)

  datatype RelayState = RelayState(rooms: map<string, set<Conn>>, inbox: map<Conn, seq<string>>)

  /** The pattern the bus subscription uses. */
  const LogsPattern := "logs:*"

  // --------------------------------------------------------- pattern matching

  /** Glob matching with `*` standing for any run of characters and every
      other character for itself (the part of the bus's pattern language the
      relay's pattern uses). */
  function GlobMatch(pattern: string, s: string): bool
    decreases |pattern| + |s|
  {
    if pattern == [] then s == []
    else if pattern[0] == '*' then GlobMatch(pattern[1..], s) || (s != [] && GlobMatch(pattern, s[1..]))
    else s != [] && s[0] == pattern[0] && GlobMatch(pattern[1..], s[1..])
  }

  lemma {:induction false} StarMatchesAll(s: string)
    ensures GlobMatch("*", s)
  {
    if s != [] {
      StarMatchesAll(s[1..]);
    }
  }

  /** A literal followed by `*` matches exactly the strings it starts. */
  lemma {:induction false} LiteralStarIsPrefix(literal: string, s: string)
    requires '*' !in literal
    ensures GlobMatch(literal + "*", s) <==> literal <= s
  {
    if literal == [] {
      assert literal + "*" == "*";
      StarMatchesAll(s);
    } else {
      assert (literal + "*")[1..] == literal[1..] + "*";
      if s != [] {
        LiteralStarIsPrefix(literal[1..], s[1..]);
        assert literal <= s <==> literal[0] == s[0] && literal[1..] <= s[1..];
      }
    }
  }

  /** Whether the bus delivers a publication on `channel` to the relay. */
  predicate Relayed(channel: string)
  {
    GlobMatch(LogsPattern, channel)
  }

  /** Only channels that start with `logs:` are relayed. */
  lemma RelayedIffLogsChannel(channel: string)
    ensures Relayed(channel) <==> "logs:" <= channel
  {
    assert LogsPattern == "logs:" + "*";
    LiteralStarIsPrefix("logs:", channel);
  }

  // ------------------------------------------------------------ one event

  function Members(rooms: map<string, set<Conn>>, room: string): set<Conn>
  {
    if room in rooms then rooms[room] else {}
  }

  /** The `message` events a connection has been sent. */
  function Received(inbox: map<Conn, seq<string>>, c: Conn): seq<string>
  {
    if c in inbox then inbox[c] else []
  }

  /** The acknowledgement a subscriber is sent. */
  function JoinAck(channel: string): string
  {
    "Joined " + channel
  }

  /** A `subscribe` event: the connection joins the room named by exactly the
      string it sent, and only that connection is sent the acknowledgement. */
  function Join(s: RelayState, conn: Conn, channel: string): (r: RelayState)
    ensures r.rooms == s.rooms[channel := Members(s.rooms, channel) + {conn}]
    ensures forall c :: Received(r.inbox, c) == Received(s.inbox, c) + (if c == conn then [JoinAck(channel)] else [])
  {
    RelayState(s.rooms[channel := Members(s.rooms, channel) + {conn}],
               s.inbox[conn := Received(s.inbox, conn) + [JoinAck(channel)]])
  }

  /** A relayed publication: every member of the room named by the channel
      is sent the message, unchanged and once; no one else is sent anything. */
  function Broadcast(s: RelayState, channel: string, message: string): (r: RelayState)
    ensures r.rooms == s.rooms
    ensures forall c :: Received(r.inbox, c) == Received(s.inbox, c) + (if c in Members(s.rooms, channel) then [message] else [])
  {
    var members := Members(s.rooms, channel);
    RelayState(s.rooms,
      map c | c in s.inbox.Keys + members :: Received(s.inbox, c) + (if c in members then [message] else []))
  }

  function Step(s: RelayState, e: Event): RelayState
  {
    match e
    case Subscribe(conn, channel) => Join(s, conn, channel)
    case BusPublish(channel, message) => if Relayed(channel) then Broadcast(s, channel, message) else s
  }

  function Run(s: RelayState, events: seq<Event>): RelayState
    decreases |events|
  {
    if events == [] then s else Run(Step(s, events[0]), events[1..])
  }

  // ------------------------------------------------------------ the server

  /** The socket.io server and the bus subscriber of one relay process. */
  class Relay {

    var rooms: map<string, set<Conn>>
    var inbox: map<Conn, seq<string>>

    constructor ()
      ensures rooms == map[] && inbox == map[]
    {
      rooms := map[];
      inbox := map[];
    }

    function State(): RelayState
      reads this
    {
      RelayState(rooms, inbox)
    }

    /** The `subscribe` handler: `socket.join(channel)`, then
        `socket.emit('message', 'Joined ' + channel)`. */
    method OnSubscribe(conn: Conn, channel: string)
      modifies this
      ensures State() == Join(old(State()), conn, channel)
    {
      rooms := rooms[channel := Members(rooms, channel) + {conn}];
      inbox := inbox[conn := Received(inbox, conn) + [JoinAck(channel)]];
    }

    /** The `pmessage` handler: `io.to(channel).emit('message', message)`,
        one member of the room at a time. */
    method OnPMessage(pattern: string, channel: string, message: string)
      modifies this
      ensures State() == Broadcast(old(State()), channel, message)
    {
      var members := Members(rooms, channel);
      var pending := members;
      while pending != {}
        invariant pending <= members
        invariant rooms == old(rooms)
        invariant inbox.Keys == old(inbox).Keys + (members - pending)
        invariant forall c :: Received(inbox, c) == Received(old(inbox), c) + (if c in members - pending then [message] else [])
        decreases pending
      {
        var c :| c in pending;
        inbox := inbox[c := Received(inbox, c) + [message]];
        pending := pending - {c};
      }
      ghost var expected := Broadcast(old(State()), channel, message);
      assert inbox.Keys == expected.inbox.Keys;
      assert forall c | c in inbox :: inbox[c] == Received(inbox, c) == Received(expected.inbox, c) == expected.inbox[c];
    }

    /** A publication on the bus, as the relay's subscription sees it. */
    method Deliver(channel: string, message: string)
      modifies this
      ensures State() == Step(old(State()), BusPublish(channel, message))
    {
      if Relayed(channel) {
        OnPMessage(LogsPattern, channel, message);
      }
    }
  }

  // ------------------------------------------------------------ traces

  /** The rooms a connection is in. */
  function RoomsOf(rooms: map<string, set<Conn>>, c: Conn): set<string>
  {
    set room | room in rooms && c in rooms[room]
  }

  /** The messages of relayed publications on the given rooms, in order. */
  function Heard(joined: set<string>, events: seq<Event>): seq<string>
    decreases |events|
  {
    if events == [] then [] else HeardOf(joined, events[0]) + Heard(joined, events[1..])
  }

  function HeardOf(joined: set<string>, e: Event): seq<string>
  {
    match e
    case BusPublish(channel, message) => if Relayed(channel) && channel in joined then [message] else []
    case Subscribe(_, _) => []
  }

  predicate SubscribesOf(e: Event, c: Conn)
  {
    e.Subscribe? && e.conn == c
  }

  /** No event of `events` is a `subscribe` of connection `c`. */
  predicate NoSubscribeBy(events: seq<Event>, c: Conn)
    decreases |events|
  {
    events == [] || (!SubscribesOf(events[0], c) && NoSubscribeBy(events[1..], c))
  }

  /** Another connection's `subscribe` and any publication leave a
      connection's rooms as they were. */
  lemma StepKeepsRooms(s: RelayState, e: Event, c: Conn)
    requires !SubscribesOf(e, c)
    ensures RoomsOf(Step(s, e).rooms, c) == RoomsOf(s.rooms, c)
  {
    var r := Step(s, e).rooms;
    forall room ensures room in RoomsOf(r, c) <==> room in RoomsOf(s.rooms, c) {
      if e.Subscribe? && room == e.channel {
        assert room in r && (c in r[room] <==> c in Members(s.rooms, room));
      }
    }
  }

  /** What one event other than its own `subscribe` sends a connection. */
  lemma StepDelivers(s: RelayState, e: Event, c: Conn)
    requires !SubscribesOf(e, c)
    ensures Received(Step(s, e).inbox, c) == Received(s.inbox, c) + HeardOf(RoomsOf(s.rooms, c), e)
  {
    match e {
      case BusPublish(channel, message) =>
        assert c in Members(s.rooms, channel) <==> channel in RoomsOf(s.rooms, c);
      case Subscribe(_, _) =>
    }
  }

  /** While a connection does not subscribe again, it is sent exactly the
      relayed messages of the rooms it is in, in publication order, each
      once: none is dropped, duplicated or reordered. */
  lemma {:induction false} DeliveryInOrder(s: RelayState, c: Conn, events: seq<Event>)
    requires NoSubscribeBy(events, c)
    decreases |events|
    ensures Received(Run(s, events).inbox, c) == Received(s.inbox, c) + Heard(RoomsOf(s.rooms, c), events)
  {
    if events != [] {
      var e := events[0];
      var next := Step(s, e);
      var joined := RoomsOf(s.rooms, c);
      StepDelivers(s, e, c);
      StepKeepsRooms(s, e, c);
      DeliveryInOrder(next, c, events[1..]);
      assert Run(s, events) == Run(next, events[1..]);
      assert Heard(joined, events) == HeardOf(joined, e) + Heard(joined, events[1..]);
    }
  }

  lemma {:induction false} RunAppend(s: RelayState, a: seq<Event>, b: seq<Event>)
    decreases |a|
    ensures Run(s, a + b) == Run(Run(s, a), b)
  {
    if a == [] {
      assert a + b == b;
    } else {
      assert (a + b)[0] == a[0];
      assert (a + b)[1..] == a[1..] + b;
      RunAppend(Step(s, a[0]), a[1..], b);
    }
  }

  /** No replay: a connection that was in no room and subscribes after some
      publications has been sent nothing of them, only its acknowledgement. */
  lemma NoReplay(s: RelayState, c: Conn, before: seq<Event>, channel: string)
    requires RoomsOf(s.rooms, c) == {} && Received(s.inbox, c) == []
    requires NoSubscribeBy(before, c)
    ensures Received(Run(s, before + [Subscribe(c, channel)]).inbox, c) == [JoinAck(channel)]
  {
    DeliveryInOrder(s, c, before);
    HeardNothing(before);
    RunAppend(s, before, [Subscribe(c, channel)]);
    assert Run(Run(s, before), [Subscribe(c, channel)]) == Step(Run(s, before), Subscribe(c, channel));
  }

  lemma {:induction false} HeardNothing(events: seq<Event>)
    decreases |events|
    ensures Heard({}, events) == []
  {
    if events != [] {
      HeardNothing(events[1..]);
    }
  }

  /** A subscriber of a channel sees every later publication on it, in
      publication order (the single-publisher case of one build worker). */
  lemma {:induction false} SubscriberSeesChannel(s: RelayState, c: Conn, channel: string, messages: seq<string>)
    requires Relayed(channel) && c in Members(s.rooms, channel)
    ensures Received(Run(s, Publishes(channel, messages)).inbox, c) == Received(s.inbox, c) + messages
  {
    var events := Publishes(channel, messages);
    assert channel in RoomsOf(s.rooms, c);
    PublishesSubscribeNoOne(channel, messages, c);
    DeliveryInOrder(s, c, events);
    HeardAll(RoomsOf(s.rooms, c), channel, messages);
  }

  /** The publications of `messages` on one channel. */
  function Publishes(channel: string, messages: seq<string>): (r: seq<Event>)
    ensures |r| == |messages|
    ensures forall i :: 0 <= i < |r| ==> r[i] == BusPublish(channel, messages[i])
  {
    if messages == [] then [] else [BusPublish(channel, messages[0])] + Publishes(channel, messages[1..])
  }

  lemma {:induction false} PublishesSubscribeNoOne(channel: string, messages: seq<string>, c: Conn)
    ensures NoSubscribeBy(Publishes(channel, messages), c)
  {
    if messages != [] {
      assert Publishes(channel, messages)[1..] == Publishes(channel, messages[1..]);
      PublishesSubscribeNoOne(channel, messages[1..], c);
    }
  }

  lemma {:induction false} HeardAll(joined: set<string>, channel: string, messages: seq<string>)
    requires Relayed(channel) && channel in joined
    ensures Heard(joined, Publishes(channel, messages)) == messages
  {
    if messages != [] {
      var events := Publishes(channel, messages);
      assert events[1..] == Publishes(channel, messages[1..]);
      HeardAll(joined, channel, messages[1..]);
    }
  }

  /** Subscribing twice does not duplicate delivery: membership is a set,
      so a later message is sent once. */
  lemma JoinTwiceDeliversOnce(s: RelayState, c: Conn, channel: string, message: string)
    ensures Join(Join(s, c, channel), c, channel).rooms == Join(s, c, channel).rooms
    ensures Received(Broadcast(Join(Join(s, c, channel), c, channel), channel, message).inbox, c)
         == Received(s.inbox, c) + [JoinAck(channel), JoinAck(channel), message]
  {
    var once := Join(s, c, channel);
    var twice := Join(once, c, channel);
    assert Members(once.rooms, channel) + {c} == Members(once.rooms, channel);
  }

  /** Rooms are the full channel names: a connection that joined only the
      bare project id is sent nothing from that project's `logs:` channel. */
  lemma BareIdRoomMissesLogs(s: RelayState, c: Conn, id: string, message: string)
    requires RoomsOf(s.rooms, c) == {id}
    ensures Received(Step(s, BusPublish("logs:" + id, message)).inbox, c) == Received(s.inbox, c)
  {
    var channel := "logs:" + id;
    assert |channel| != |id|;
    assert channel !in RoomsOf(s.rooms, c);
  }
}
