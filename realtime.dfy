/** The realtime room coordinator of server/index.js: the `connectedUsers` and
    `collaborationRooms` maps, the socket-level room membership kept by `socket.join` /
    `socket.leave`, and the six socket handlers with the events they emit.

    Each handler is first given as a pure transition on a `Registry` value (the three maps)
    that also returns the emits it makes, in order; the `Coordinator` class then performs the
    same updates in place on its map fields and is proved to agree with the transitions. */
module Realtime {
  import opened Seqs

  type SocketId = string
  type RoomId = string
  type UserId = string

  /** What `connectedUsers` records for a socket: `{ userId, username, roomId }`. */
  datatype Session = Session(userId: UserId, username: string, roomId: RoomId)

  datatype Position = Position(x: int, y: int)

  /** The server-to-client events, with exactly the payload fields the server builds. */
  datatype Event =
    | UserJoined(userId: UserId, username: string)
    | RoomParticipants(participants: seq<UserId>)
    | DocumentUpdated(documentId: string, content: string, userId: UserId, timestamp: int)
    | CursorUpdated(userId: UserId, username: string, position: Position, timestamp: int)
    | ChatMessage(userId: UserId, username: string, message: string, timestamp: int)
    | UserLeft(userId: UserId, username: string)

  /** One `emit`: the sockets it reaches and the event. */
  datatype Emit = Emit(targets: set<SocketId>, event: Event)

  /** The server's state. A JavaScript `Set` of user ids is a duplicate-free sequence in
      insertion order, so `Array.from(set)` is the sequence itself. */
  datatype Registry = Registry(
    connectedUsers: map<SocketId, Session>,
    collaborationRooms: map<RoomId, seq<UserId>>,
    socketRooms: map<RoomId, set<SocketId>>)

  /** A handler's result: the next state and the emits, in the order they are made. */
  datatype Outcome = Outcome(next: Registry, emits: seq<Emit>)

  /** The client-to-server events with their payloads; `disconnect` carries none. */
  datatype Command =
    | JoinRoom(roomId: RoomId, userId: UserId, username: string)
    | DocumentChange(roomId: RoomId, documentId: string, content: string, userId: UserId)
    | CursorMove(roomId: RoomId, position: Position, userId: UserId, username: string)
    | SendChat(roomId: RoomId, message: string, userId: UserId, username: string)
    | LeaveRoom(roomId: RoomId, userId: UserId, username: string)
    | Disconnect

  /** One handler invocation: the socket it runs for, the payload, and the clock reading
      `new Date()` would give. */
  datatype Request = Request(socket: SocketId, command: Command, now: int)

  const Empty := Registry(map[], map[], map[])

  /** Every room set is non-empty and duplicate-free, and every socket room is non-empty. */
  ghost predicate Inv(r: Registry) {
    && (forall q :: q in r.collaborationRooms ==>
          r.collaborationRooms[q] != [] && NoDuplicates(r.collaborationRooms[q]))
    && (forall q :: q in r.socketRooms ==> r.socketRooms[q] != {})
  }

  // ---------------------------------------------------------------------------------------
  // The maps' primitive updates

  /** The sockets in a socket.io room (`io.to(roomId)`). */
  function Members(sockets: map<RoomId, set<SocketId>>, roomId: RoomId): set<SocketId> {
    if roomId in sockets then sockets[roomId] else {}
  }

  /** `socket.join(roomId)`. */
  function JoinSocket(sockets: map<RoomId, set<SocketId>>, roomId: RoomId, sid: SocketId): (r: map<RoomId, set<SocketId>>)
    ensures Members(r, roomId) == Members(sockets, roomId) + {sid}
    ensures forall q :: q != roomId ==> Members(r, q) == Members(sockets, q)
    ensures forall q :: q in r ==> r[q] != {} || (q in sockets && r[q] == sockets[q])
  {
    sockets[roomId := Members(sockets, roomId) + {sid}]
  }

  /** `socket.leave(roomId)`; the adapter drops a room when its last socket leaves. */
  function LeaveSocket(sockets: map<RoomId, set<SocketId>>, roomId: RoomId, sid: SocketId): (r: map<RoomId, set<SocketId>>)
    ensures Members(r, roomId) == Members(sockets, roomId) - {sid}
    ensures forall q :: q != roomId ==> Members(r, q) == Members(sockets, q)
    ensures forall q :: q in r ==> r[q] != {} || (q in sockets && r[q] == sockets[q])
  {
    var rest := Members(sockets, roomId) - {sid};
    if rest == {} then sockets - {roomId} else sockets[roomId := rest]
  }

  /** socket.io's own cleanup of a closing socket: it leaves every room before the
      `disconnect` handler runs. */
  function LeaveAllSockets(sockets: map<RoomId, set<SocketId>>, sid: SocketId): (r: map<RoomId, set<SocketId>>)
    ensures forall q :: Members(r, q) == Members(sockets, q) - {sid}
    ensures forall q :: q in r ==> r[q] != {}
  {
    map q | q in sockets && sockets[q] - {sid} != {} :: sockets[q] - {sid}
  }

  /** `if (!rooms.has(roomId)) rooms.set(roomId, new Set()); rooms.get(roomId).add(userId)`. */
  function AddUser(rooms: map<RoomId, seq<UserId>>, roomId: RoomId, userId: UserId): map<RoomId, seq<UserId>> {
    var ids := if roomId in rooms then rooms[roomId] else [];
    rooms[roomId := if userId in ids then ids else ids + [userId]]
  }

  /** `if (rooms.has(roomId)) { rooms.get(roomId).delete(userId); if (size === 0) rooms.delete(roomId) }`. */
  function RemoveUser(rooms: map<RoomId, seq<UserId>>, roomId: RoomId, userId: UserId): map<RoomId, seq<UserId>> {
    if roomId !in rooms then rooms
    else
      var ids := RemoveAll(rooms[roomId], userId);
      if ids == [] then rooms - {roomId} else rooms[roomId := ids]
  }

  // ---------------------------------------------------------------------------------------
  // The six handlers

  /** 'join-room' (server/index.js:50-70). */
  function OnJoinRoom(r: Registry, sid: SocketId, roomId: RoomId, userId: UserId, username: string): Outcome {
    var sockets := JoinSocket(r.socketRooms, roomId, sid);
    var rooms := AddUser(r.collaborationRooms, roomId, userId);
    var users := r.connectedUsers[sid := Session(userId, username, roomId)];
    Outcome(Registry(users, rooms, sockets),
      [ Emit(Members(sockets, roomId) - {sid}, UserJoined(userId, username)),
        Emit({sid}, RoomParticipants(rooms[roomId])) ])
  }

  /** 'document-change' (server/index.js:73-83): relayed to the payload's room, sender excluded. */
  function OnDocumentChange(r: Registry, sid: SocketId, roomId: RoomId, documentId: string, content: string, userId: UserId, now: int): Outcome {
    Outcome(r, [Emit(Members(r.socketRooms, roomId) - {sid}, DocumentUpdated(documentId, content, userId, now))])
  }

  /** 'cursor-move' (server/index.js:86-96): relayed to the payload's room, sender excluded. */
  function OnCursorMove(r: Registry, sid: SocketId, roomId: RoomId, position: Position, userId: UserId, username: string, now: int): Outcome {
    Outcome(r, [Emit(Members(r.socketRooms, roomId) - {sid}, CursorUpdated(userId, username, position, now))])
  }

  /** 'chat-message' (server/index.js:99-109): `io.to(roomId)` reaches the whole room, sender included. */
  function OnChatMessage(r: Registry, roomId: RoomId, message: string, userId: UserId, username: string, now: int): Outcome {
    Outcome(r, [Emit(Members(r.socketRooms, roomId), ChatMessage(userId, username, message, now))])
  }

  /** 'leave-room' (server/index.js:112-129): `connectedUsers` is left as it is. */
  function OnLeaveRoom(r: Registry, sid: SocketId, roomId: RoomId, userId: UserId, username: string): Outcome {
    var sockets := LeaveSocket(r.socketRooms, roomId, sid);
    var rooms := RemoveUser(r.collaborationRooms, roomId, userId);
    Outcome(Registry(r.connectedUsers, rooms, sockets),
      [Emit(Members(sockets, roomId) - {sid}, UserLeft(userId, username))])
  }

  /** 'disconnect' (server/index.js:132-154): acts on the room recorded in `connectedUsers` only. */
  function OnDisconnect(r: Registry, sid: SocketId): Outcome {
    var sockets := LeaveAllSockets(r.socketRooms, sid);
    if sid !in r.connectedUsers then
      Outcome(Registry(r.connectedUsers, r.collaborationRooms, sockets), [])
    else
      var info := r.connectedUsers[sid];
      Outcome(Registry(r.connectedUsers - {sid}, RemoveUser(r.collaborationRooms, info.roomId, info.userId), sockets),
        [Emit(Members(sockets, info.roomId) - {sid}, UserLeft(info.userId, info.username))])
  }

  /** Dispatch of one request to its handler. */
  function Step(r: Registry, req: Request): Outcome {
    match req.command
    case JoinRoom(roomId, userId, username) => OnJoinRoom(r, req.socket, roomId, userId, username)
    case DocumentChange(roomId, documentId, content, userId) =>
      OnDocumentChange(r, req.socket, roomId, documentId, content, userId, req.now)
    case CursorMove(roomId, position, userId, username) =>
      OnCursorMove(r, req.socket, roomId, position, userId, username, req.now)
    case SendChat(roomId, message, userId, username) => OnChatMessage(r, roomId, message, userId, username, req.now)
    case LeaveRoom(roomId, userId, username) => OnLeaveRoom(r, req.socket, roomId, userId, username)
    case Disconnect => OnDisconnect(r, req.socket)
  }

  /** Requests handled one after another, each to completion (Node's event loop); the emits
      are concatenated in order. */
  function Run(r: Registry, reqs: seq<Request>): Outcome
    decreases |reqs|
  {
    if reqs == [] then Outcome(r, [])
    else
      var first := Step(r, reqs[0]);
      var rest := Run(first.next, reqs[1..]);
      Outcome(rest.next, first.emits + rest.emits)
  }

  /** The events a socket receives from a list of emits, in order. */
  function Received(emits: seq<Emit>, s: SocketId): seq<Event> {
    if emits == [] then []
    else (if s in emits[0].targets then [emits[0].event] else []) + Received(emits[1..], s)
  }

  lemma {:induction false} ReceivedConcat(a: seq<Emit>, b: seq<Emit>, s: SocketId)
    ensures Received(a + b, s) == Received(a, s) + Received(b, s)
  {
    if a == [] {
      assert a + b == b;
    } else {
      var head := if s in a[0].targets then [a[0].event] else [];
      assert (a + b)[0] == a[0];
      assert (a + b)[1..] == a[1..] + b;
      assert Received(a + b, s) == head + Received(a[1..] + b, s);
      assert Received(a, s) == head + Received(a[1..], s);
      ReceivedConcat(a[1..], b, s);
    }
  }

  lemma ReceivedOne(e: Emit, s: SocketId)
    ensures Received([e], s) == if s in e.targets then [e.event] else []
  {
    assert [e][1..] == [];
  }

  lemma ReceivedTwo(e1: Emit, e2: Emit, s: SocketId)
    ensures Received([e1, e2], s) == Received([e1], s) + Received([e2], s)
  {
    assert [e1, e2] == [e1] + [e2];
    ReceivedConcat([e1], [e2], s);
  }

  // ---------------------------------------------------------------------------------------
  // Properties of the handlers

  /** join-room records the session and adds the user id to the room's set, creating the
      set when absent; the set grows by one exactly when the id was not yet in it, and no
      other room changes. */
  lemma JoinRecordsMembership(r: Registry, sid: SocketId, roomId: RoomId, userId: UserId, username: string)
    ensures var o := OnJoinRoom(r, sid, roomId, userId, username);
      var before := if roomId in r.collaborationRooms then r.collaborationRooms[roomId] else [];
      && o.next.connectedUsers == r.connectedUsers[sid := Session(userId, username, roomId)]
      && roomId in o.next.collaborationRooms
      && userId in o.next.collaborationRooms[roomId]
      && (forall u :: u in o.next.collaborationRooms[roomId] <==> u in before || u == userId)
      && |o.next.collaborationRooms[roomId]| == |before| + (if userId in before then 0 else 1)
      && (forall q :: q != roomId ==>
            (q in o.next.collaborationRooms <==> q in r.collaborationRooms)
            && (q in r.collaborationRooms ==> o.next.collaborationRooms[q] == r.collaborationRooms[q]))
      && sid in Members(o.next.socketRooms, roomId)
  {
  }

  /** A repeated join with a user id already in the room, from any socket, leaves every
      room set as it was (so its size is unchanged). */
  lemma RepeatedJoinKeepsRooms(r: Registry, sid: SocketId, roomId: RoomId, userId: UserId, username: string)
    requires roomId in r.collaborationRooms && userId in r.collaborationRooms[roomId]
    ensures OnJoinRoom(r, sid, roomId, userId, username).next.collaborationRooms == r.collaborationRooms
  {
  }

  /** The joiner alone receives room-participants, which lists the room's user ids including
      its own; every other socket of the room receives user-joined, and no one else anything. */
  lemma JoinDeliveries(r: Registry, sid: SocketId, roomId: RoomId, userId: UserId, username: string, s: SocketId)
    ensures var o := OnJoinRoom(r, sid, roomId, userId, username);
      && Received(o.emits, sid) == [RoomParticipants(o.next.collaborationRooms[roomId])]
      && userId in o.next.collaborationRooms[roomId]
      && (s != sid ==>
            Received(o.emits, s) ==
              if s in Members(r.socketRooms, roomId) then [UserJoined(userId, username)] else [])
  {
    var o := OnJoinRoom(r, sid, roomId, userId, username);
    ReceivedTwo(o.emits[0], o.emits[1], sid);
    ReceivedTwo(o.emits[0], o.emits[1], s);
    ReceivedOne(o.emits[0], sid);
    ReceivedOne(o.emits[1], sid);
    ReceivedOne(o.emits[0], s);
    ReceivedOne(o.emits[1], s);
  }

  /** The three relays read and change no map. document-updated and cursor-updated reach
      the payload room's sockets except the sender; chat-message reaches all of them,
      the sender too when its socket is in that room. */
  lemma RelayTargets(r: Registry, sid: SocketId, roomId: RoomId, documentId: string, content: string,
                     position: Position, message: string, userId: UserId, username: string, now: int, s: SocketId)
    ensures var d := OnDocumentChange(r, sid, roomId, documentId, content, userId, now);
      && d.next == r
      && Received(d.emits, s) ==
           if s != sid && s in Members(r.socketRooms, roomId) then [DocumentUpdated(documentId, content, userId, now)] else []
    ensures var c := OnCursorMove(r, sid, roomId, position, userId, username, now);
      && c.next == r
      && Received(c.emits, s) ==
           if s != sid && s in Members(r.socketRooms, roomId) then [CursorUpdated(userId, username, position, now)] else []
    ensures var m := OnChatMessage(r, roomId, message, userId, username, now);
      && m.next == r
      && Received(m.emits, s) ==
           if s in Members(r.socketRooms, roomId) then [ChatMessage(userId, username, message, now)] else []
  {
  }

  /** leave-room on a room the registry does not know changes neither `connectedUsers` nor
      `collaborationRooms`, yet still emits user-left to the other sockets of that room. */
  lemma LeaveUnknownRoom(r: Registry, sid: SocketId, roomId: RoomId, userId: UserId, username: string)
    requires roomId !in r.collaborationRooms
    ensures var o := OnLeaveRoom(r, sid, roomId, userId, username);
      && o.next.connectedUsers == r.connectedUsers
      && o.next.collaborationRooms == r.collaborationRooms
      && o.emits == [Emit(Members(r.socketRooms, roomId) - {sid}, UserLeft(userId, username))]
  {
    var sockets := LeaveSocket(r.socketRooms, roomId, sid);
    assert Members(sockets, roomId) - {sid} == Members(r.socketRooms, roomId) - {sid};
  }

  /** leave-room removes the user id from that room only and deletes the room once empty. */
  lemma LeaveRemovesUser(r: Registry, sid: SocketId, roomId: RoomId, userId: UserId, username: string)
    requires roomId in r.collaborationRooms
    ensures var rooms := OnLeaveRoom(r, sid, roomId, userId, username).next.collaborationRooms;
      && (roomId in rooms <==> exists u :: u in r.collaborationRooms[roomId] && u != userId)
      && (roomId in rooms ==> rooms[roomId] == RemoveAll(r.collaborationRooms[roomId], userId))
      && (forall q :: q != roomId ==>
            (q in rooms <==> q in r.collaborationRooms) && (q in rooms ==> rooms[q] == r.collaborationRooms[q]))
  {
    var ids := RemoveAll(r.collaborationRooms[roomId], userId);
    if ids != [] {
      assert ids[0] in r.collaborationRooms[roomId];
    }
  }

  /** leave-room keeps the socket's `connectedUsers` entry, so a later disconnect of the
      same socket removes the user again and emits user-left a second time, to the same
      sockets. */
  lemma LeaveThenDisconnectRepeatsUserLeft(r: Registry, sid: SocketId, roomId: RoomId, userId: UserId, username: string)
    requires sid in r.connectedUsers && r.connectedUsers[sid] == Session(userId, username, roomId)
    ensures var left := OnLeaveRoom(r, sid, roomId, userId, username);
      var gone := OnDisconnect(left.next, sid);
      var others := Members(r.socketRooms, roomId) - {sid};
      && left.next.connectedUsers == r.connectedUsers
      && left.emits == [Emit(others, UserLeft(userId, username))]
      && gone.emits == [Emit(others, UserLeft(userId, username))]
      && forall s :: s in others ==>
           Received(left.emits + gone.emits, s) == [UserLeft(userId, username), UserLeft(userId, username)]
  {
    var left := OnLeaveRoom(r, sid, roomId, userId, username);
    var gone := OnDisconnect(left.next, sid);
    var once := left.next.socketRooms;
    var twice := LeaveAllSockets(once, sid);
    assert Members(once, roomId) - {sid} == Members(r.socketRooms, roomId) - {sid};
    assert Members(twice, roomId) - {sid} == Members(once, roomId) - {sid};
    forall s | s in Members(r.socketRooms, roomId) - {sid}
      ensures Received(left.emits + gone.emits, s) == [UserLeft(userId, username), UserLeft(userId, username)]
    {
      ReceivedConcat(left.emits, gone.emits, s);
    }
  }

  /** disconnect of a socket with no `connectedUsers` entry changes neither map and emits
      nothing. */
  lemma DisconnectWithoutSession(r: Registry, sid: SocketId)
    requires sid !in r.connectedUsers
    ensures var o := OnDisconnect(r, sid);
      && o.next.connectedUsers == r.connectedUsers
      && o.next.collaborationRooms == r.collaborationRooms
      && o.emits == []
  {
  }

  /** disconnect removes the socket's entry and the user id from the recorded room only:
      a room the same socket joined earlier keeps the user id. */
  lemma DisconnectLeavesRecordedRoomOnly(r: Registry, sid: SocketId, earlier: RoomId)
    requires sid in r.connectedUsers && earlier != r.connectedUsers[sid].roomId
    ensures var o := OnDisconnect(r, sid);
      && o.next.connectedUsers == r.connectedUsers - {sid}
      && (earlier in o.next.collaborationRooms <==> earlier in r.collaborationRooms)
      && (earlier in r.collaborationRooms ==> o.next.collaborationRooms[earlier] == r.collaborationRooms[earlier])
      && o.emits == [Emit(Members(r.socketRooms, r.connectedUsers[sid].roomId) - {sid},
                          UserLeft(r.connectedUsers[sid].userId, r.connectedUsers[sid].username))]
  {
    var q := r.connectedUsers[sid].roomId;
    var sockets := LeaveAllSockets(r.socketRooms, sid);
    assert Members(sockets, q) - {sid} == Members(r.socketRooms, q) - {sid};
  }

  lemma LeaveAllSocketsTwice(sockets: map<RoomId, set<SocketId>>, sid: SocketId)
    ensures LeaveAllSockets(LeaveAllSockets(sockets, sid), sid) == LeaveAllSockets(sockets, sid)
  {
    var once := LeaveAllSockets(sockets, sid);
    forall q | q in once
      ensures once[q] - {sid} == once[q]
    {
      assert Members(once, q) == Members(sockets, q) - {sid};
    }
  }

  /** A second disconnect of the same socket is a no-op that emits nothing. */
  lemma DisconnectTwice(r: Registry, sid: SocketId)
    ensures var once := OnDisconnect(r, sid);
      var twice := OnDisconnect(once.next, sid);
      twice.next == once.next && twice.emits == []
  {
    var once := OnDisconnect(r, sid);
    LeaveAllSocketsTwice(r.socketRooms, sid);
  }

  /** Room sets are keyed by user id, not by connection: when two sockets of one user are
      in a room and one disconnects, the user id leaves the room set although the other
      socket is still in the room. */
  lemma SharedUserIdLostOnDisconnect(r: Registry, s1: SocketId, s2: SocketId, roomId: RoomId, userId: UserId, username: string)
    requires s1 != s2
    requires r == Empty
    ensures var a := OnJoinRoom(r, s1, roomId, userId, username).next;
      var b := OnJoinRoom(a, s2, roomId, userId, username).next;
      var c := OnDisconnect(b, s1).next;
      && b.collaborationRooms[roomId] == [userId]
      && roomId !in c.collaborationRooms
      && s2 in Members(c.socketRooms, roomId)
  {
    var a := OnJoinRoom(r, s1, roomId, userId, username).next;
    var b := OnJoinRoom(a, s2, roomId, userId, username).next;
    assert Members(LeaveAllSockets(b.socketRooms, s1), roomId) == {s2};
  }

  // ---------------------------------------------------------------------------------------
  // The invariant

  lemma AddUserKeepsInv(rooms: map<RoomId, seq<UserId>>, roomId: RoomId, userId: UserId)
    requires forall q :: q in rooms ==> rooms[q] != [] && NoDuplicates(rooms[q])
    ensures var rooms' := AddUser(rooms, roomId, userId);
      forall q :: q in rooms' ==> rooms'[q] != [] && NoDuplicates(rooms'[q])
  {
  }

  lemma RemoveUserKeepsInv(rooms: map<RoomId, seq<UserId>>, roomId: RoomId, userId: UserId)
    requires forall q :: q in rooms ==> rooms[q] != [] && NoDuplicates(rooms[q])
    ensures var rooms' := RemoveUser(rooms, roomId, userId);
      forall q :: q in rooms' ==> rooms'[q] != [] && NoDuplicates(rooms'[q])
  {
    if roomId in rooms {
      RemoveNoDuplicates(rooms[roomId], userId);
    }
  }

  /** Every handler keeps every room set non-empty and duplicate-free: leave and disconnect
      delete a room whose set becomes empty. */
  lemma StepKeepsInv(r: Registry, req: Request)
    requires Inv(r)
    ensures Inv(Step(r, req).next)
  {
    match req.command
    case JoinRoom(roomId, userId, username) =>
      AddUserKeepsInv(r.collaborationRooms, roomId, userId);
    case LeaveRoom(roomId, userId, username) =>
      RemoveUserKeepsInv(r.collaborationRooms, roomId, userId);
    case Disconnect =>
      if req.socket in r.connectedUsers {
        var info := r.connectedUsers[req.socket];
        RemoveUserKeepsInv(r.collaborationRooms, info.roomId, info.userId);
      }
    case _ =>
  }

  /** After any sequence of handled requests every room set is still non-empty. */
  lemma {:induction false} RunKeepsInv(r: Registry, reqs: seq<Request>)
    requires Inv(r)
    ensures Inv(Run(r, reqs).next)
    decreases |reqs|
  {
    if reqs != [] {
      StepKeepsInv(r, reqs[0]);
      RunKeepsInv(Step(r, reqs[0]).next, reqs[1..]);
    }
  }

  /** The events delivered over a run are those of each step, in order. */
  lemma {:induction false} RunReceived(r: Registry, reqs: seq<Request>, s: SocketId)
    requires reqs != []
    ensures Received(Run(r, reqs).emits, s) ==
            Received(Step(r, reqs[0]).emits, s) + Received(Run(Step(r, reqs[0]).next, reqs[1..]).emits, s)
  {
    ReceivedConcat(Step(r, reqs[0]).emits, Run(Step(r, reqs[0]).next, reqs[1..]).emits, s);
  }

  // ---------------------------------------------------------------------------------------
  // The coordinator as the server runs it: three maps updated in place

  class Coordinator {
    var connectedUsers: map<SocketId, Session>
    var collaborationRooms: map<RoomId, seq<UserId>>
    var socketRooms: map<RoomId, set<SocketId>>

    function Model(): Registry
      reads this
    {
      Registry(connectedUsers, collaborationRooms, socketRooms)
    }

    ghost predicate Valid()
      reads this
    {
      Inv(Model())
    }

    constructor ()
      ensures Valid() && Model() == Empty
    {
      connectedUsers := map[];
      collaborationRooms := map[];
      socketRooms := map[];
    }

    method JoinRoom(socket: SocketId, roomId: RoomId, userId: UserId, username: string) returns (emits: seq<Emit>)
      requires Valid()
      modifies this
      ensures Valid()
      ensures Model() == OnJoinRoom(old(Model()), socket, roomId, userId, username).next
      ensures emits == OnJoinRoom(old(Model()), socket, roomId, userId, username).emits
    {
      AddUserKeepsInv(collaborationRooms, roomId, userId);
      socketRooms := socketRooms[roomId := Members(socketRooms, roomId) + {socket}];
      var ids := if roomId in collaborationRooms then collaborationRooms[roomId] else [];
      if userId !in ids {
        ids := ids + [userId];
      }
      collaborationRooms := collaborationRooms[roomId := ids];
      connectedUsers := connectedUsers[socket := Session(userId, username, roomId)];
      emits := [ Emit(socketRooms[roomId] - {socket}, UserJoined(userId, username)),
                 Emit({socket}, RoomParticipants(collaborationRooms[roomId])) ];
    }

    method DocumentChange(socket: SocketId, roomId: RoomId, documentId: string, content: string, userId: UserId, now: int)
      returns (emits: seq<Emit>)
      ensures emits == OnDocumentChange(Model(), socket, roomId, documentId, content, userId, now).emits
    {
      emits := [Emit(Members(socketRooms, roomId) - {socket}, DocumentUpdated(documentId, content, userId, now))];
    }

    method CursorMove(socket: SocketId, roomId: RoomId, position: Position, userId: UserId, username: string, now: int)
      returns (emits: seq<Emit>)
      ensures emits == OnCursorMove(Model(), socket, roomId, position, userId, username, now).emits
    {
      emits := [Emit(Members(socketRooms, roomId) - {socket}, CursorUpdated(userId, username, position, now))];
    }

    method ChatMessage(roomId: RoomId, message: string, userId: UserId, username: string, now: int)
      returns (emits: seq<Emit>)
      ensures emits == OnChatMessage(Model(), roomId, message, userId, username, now).emits
    {
      emits := [Emit(Members(socketRooms, roomId), Event.ChatMessage(userId, username, message, now))];
    }

    method LeaveRoom(socket: SocketId, roomId: RoomId, userId: UserId, username: string) returns (emits: seq<Emit>)
      requires Valid()
      modifies this
      ensures Valid()
      ensures Model() == OnLeaveRoom(old(Model()), socket, roomId, userId, username).next
      ensures emits == OnLeaveRoom(old(Model()), socket, roomId, userId, username).emits
    {
      StepKeepsInv(Model(), Request(socket, Command.LeaveRoom(roomId, userId, username), 0));
      var rest := Members(socketRooms, roomId) - {socket};
      socketRooms := if rest == {} then socketRooms - {roomId} else socketRooms[roomId := rest];
      RemoveFromRoom(roomId, userId);
      emits := [Emit(Members(socketRooms, roomId) - {socket}, UserLeft(userId, username))];
    }

    method Disconnect(socket: SocketId) returns (emits: seq<Emit>)
      requires Valid()
      modifies this
      ensures Valid()
      ensures Model() == OnDisconnect(old(Model()), socket).next
      ensures emits == OnDisconnect(old(Model()), socket).emits
    {
      StepKeepsInv(Model(), Request(socket, Command.Disconnect, 0));
      socketRooms := LeaveAllSockets(socketRooms, socket);
      emits := [];
      if socket in connectedUsers {
        var info := connectedUsers[socket];
        RemoveFromRoom(info.roomId, info.userId);
        emits := [Emit(Members(socketRooms, info.roomId) - {socket}, UserLeft(info.userId, info.username))];
        connectedUsers := connectedUsers - {socket};
      }
    }

    /** The block shared by leave-room and disconnect (server/index.js:117-123, 138-144). */
    method RemoveFromRoom(roomId: RoomId, userId: UserId)
      modifies this`collaborationRooms
      ensures collaborationRooms == RemoveUser(old(collaborationRooms), roomId, userId)
    {
      if roomId in collaborationRooms {
        collaborationRooms := collaborationRooms[roomId := RemoveAll(collaborationRooms[roomId], userId)];
        if |collaborationRooms[roomId]| == 0 {
          collaborationRooms := collaborationRooms - {roomId};
        }
      }
    }
  }
}
