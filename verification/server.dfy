/**
 * The room registry of the WebSocket server (apps/websocket-backend/src/index.ts).
 *
 * The registry maps a room id to the list of connected users, in join order.
 * Sockets are opaque numbers. What the server sends or does to a socket, and
 * every persistence call, is appended to the ghost `log`. The token check
 * and the database lookups are oracles: their outcomes are parameters.
 */
module WsServer {
  import opened Wrappers

  datatype Socket = Socket(n: nat)

  datatype User = User(userId: string, ws: Socket)

  /** A frame sent to a socket: a bare text, or `{type: "CHAT", message}`. */
  datatype Payload = Text(text: string) | ChatBroadcast(message: string)

  datatype Event =
    | Sent(to: Socket, payload: Payload)
    | Closed(ws: Socket)
    | Persisted(roomId: int, userId: string, message: string)

  /** A parsed client frame; any other `type` is `Other`. */
  datatype ClientMessage =
    | JoinRoom(roomId: int)
    | LeaveRoom(roomId: int)
    | ChatMsg(roomId: int, message: string)
    | Other

  /** What the room lookup of JOIN_ROOM yields: a room, nothing, or an exception. */
  datatype Lookup = RoomFound | RoomMissing | LookupFailed

  /** The outcome of verifying a token: rejected, or the payload's `userId` claim ("" when absent). */
  datatype TokenCheck = Rejected | Verified(claim: string)

  /** `checkUser`: the user id of a verified token whose claim is present; otherwise nothing. */
  function CheckUser(t: TokenCheck): (r: Option<string>)
    ensures r.Some? <==> t.Verified? && t.claim != ""
    ensures r.Some? ==> r.value == t.claim
  {
    if t.Verified? && t.claim != "" then Some(t.claim) else None
  }

  /** `rooms.get(roomId) || []`. */
  function UsersOf(rooms: map<int, seq<User>>, roomId: int): (users: seq<User>)
    ensures roomId !in rooms ==> users == []
  {
    if roomId in rooms then rooms[roomId] else []
  }

  /** `filter(user => user.userId !== userId)`. */
  function RemoveUser(users: seq<User>, userId: string): (r: seq<User>)
    ensures |r| <= |users|
    ensures forall u :: u in r <==> u in users && u.userId != userId
  {
    if users == [] then []
    else
      var rest := RemoveUser(users[1..], userId);
      if users[0].userId == userId then rest else [users[0]] + rest
  }

  /** Filtering a concatenation filters each part and keeps their order. */
  lemma {:induction false} RemoveUserAppend(a: seq<User>, b: seq<User>, userId: string)
    ensures RemoveUser(a + b, userId) == RemoveUser(a, userId) + RemoveUser(b, userId)
  {
    if a == [] {
      assert a + b == b;
    } else {
      var head := if a[0].userId == userId then [] else [a[0]];
      assert a + b == [a[0]] + (a[1..] + b);
      calc {
        RemoveUser(a + b, userId);
      == { RemoveUserCons(a[0], a[1..] + b, userId); }
        head + RemoveUser(a[1..] + b, userId);
      == { RemoveUserAppend(a[1..], b, userId); }
        head + (RemoveUser(a[1..], userId) + RemoveUser(b, userId));
      ==
        (head + RemoveUser(a[1..], userId)) + RemoveUser(b, userId);
      == { assert a == [a[0]] + a[1..]; RemoveUserCons(a[0], a[1..], userId); }
        RemoveUser(a, userId) + RemoveUser(b, userId);
      }
    }
  }

  /** One step of the filter: the head survives exactly when its id differs. */
  lemma RemoveUserCons(u: User, rest: seq<User>, userId: string)
    ensures RemoveUser([u] + rest, userId) == (if u.userId == userId then [] else [u]) + RemoveUser(rest, userId)
  {
    assert ([u] + rest)[0] == u && ([u] + rest)[1..] == rest;
  }

  /** A user with none of the removed id is kept in place: removing an id not present changes nothing. */
  lemma {:induction false} RemoveAbsentUser(users: seq<User>, userId: string)
    requires forall i :: 0 <= i < |users| ==> users[i].userId != userId
    ensures RemoveUser(users, userId) == users
  {
    if users != [] {
      RemoveAbsentUser(users[1..], userId);
      assert users == [users[0]] + users[1..];
    }
  }

  /** Leaving twice is leaving once. */
  lemma RemoveUserIdempotent(users: seq<User>, userId: string)
    ensures RemoveUser(RemoveUser(users, userId), userId) == RemoveUser(users, userId)
  {
    var r := RemoveUser(users, userId);
    forall i | 0 <= i < |r|
      ensures r[i].userId != userId
    {
      assert r[i] in r;
    }
    RemoveAbsentUser(r, userId);
  }

  /** A join followed by a leave of the same user restores the other members, in order. */
  lemma JoinThenLeave(users: seq<User>, userId: string, ws: Socket)
    ensures RemoveUser(users + [User(userId, ws)], userId) == RemoveUser(users, userId)
  {
    RemoveUserAppend(users, [User(userId, ws)], userId);
    assert RemoveUser([User(userId, ws)], userId) == [];
  }

  /** The frames of one CHAT broadcast: one per member, in list order. */
  function Broadcast(users: seq<User>, message: string): (sent: seq<Event>)
    ensures |sent| == |users|
    ensures forall i :: 0 <= i < |users| ==> sent[i] == Sent(users[i].ws, ChatBroadcast(message))
  {
    if users == [] then []
    else Broadcast(users[..|users| - 1], message) + [Sent(users[|users| - 1].ws, ChatBroadcast(message))]
  }

  /** Every member of the room receives the chat, the sender included; nobody else does. */
  lemma BroadcastReachesMembers(users: seq<User>, message: string, ws: Socket)
    ensures Sent(ws, ChatBroadcast(message)) in Broadcast(users, message)
            <==> exists u :: u in users && u.ws == ws
  {
    var sent := Broadcast(users, message);
    if exists u :: u in users && u.ws == ws {
      var u :| u in users && u.ws == ws;
      var i :| 0 <= i < |users| && users[i] == u;
      assert sent[i] == Sent(ws, ChatBroadcast(message));
    }
    if Sent(ws, ChatBroadcast(message)) in sent {
      var i :| 0 <= i < |sent| && sent[i] == Sent(ws, ChatBroadcast(message));
      assert users[i] in users;
    }
  }

  /**
   * What JOIN_ROOM sends back on `ws`: nothing when the room is found;
   * otherwise one text naming the failure, then a close.
   */
  function JoinReplies(ws: Socket, lookup: Lookup): (replies: seq<Event>)
    ensures replies == [] <==> lookup == RoomFound
    ensures replies != [] ==> |replies| == 2 && replies[1] == Closed(ws) && replies[0].Sent? && replies[0].to == ws && replies[0].payload.Text?
  {
    match lookup
    case RoomFound => []
    case RoomMissing => [Sent(ws, Text("Invalid room id.")), Closed(ws)]
    case LookupFailed => [Sent(ws, Text("Soemthing went wrong.")), Closed(ws)]
  }

  /** The registry after one client frame from `userId` on `ws`. */
  function NextRooms(rooms: map<int, seq<User>>, userId: string, ws: Socket, msg: ClientMessage, lookup: Lookup)
    : (next: map<int, seq<User>>)
    ensures msg.JoinRoom? && lookup != LookupFailed ==>
              next.Keys == rooms.Keys + {msg.roomId}
              && next[msg.roomId] == UsersOf(rooms, msg.roomId) + [User(userId, ws)]
    ensures msg.LeaveRoom? ==>
              next.Keys == rooms.Keys + {msg.roomId}
              && next[msg.roomId] == RemoveUser(UsersOf(rooms, msg.roomId), userId)
    ensures msg.ChatMsg? || msg.Other? || (msg.JoinRoom? && lookup == LookupFailed) ==> next == rooms
  {
    match msg
    case JoinRoom(roomId) =>
      if lookup == LookupFailed then rooms
      else rooms[roomId := UsersOf(rooms, roomId) + [User(userId, ws)]]
    case LeaveRoom(roomId) =>
      rooms[roomId := RemoveUser(UsersOf(rooms, roomId), userId)]
    case ChatMsg(_, _) => rooms
    case Other => rooms
  }

  /**
   * Only LEAVE_ROOM takes anyone out: after any other frame every room is
   * still there and its list only grew at the end.
   */
  lemma OnlyLeaveRemoves(rooms: map<int, seq<User>>, userId: string, ws: Socket, msg: ClientMessage, lookup: Lookup)
    requires !msg.LeaveRoom?
    ensures var next := NextRooms(rooms, userId, ws, msg, lookup);
            forall r :: r in rooms ==> r in next && rooms[r] <= next[r]
  {
  }

  /** A frame about one room leaves every other room's list as it was. */
  lemma OtherRoomsUntouched(rooms: map<int, seq<User>>, userId: string, ws: Socket, msg: ClientMessage, lookup: Lookup, r: int)
    requires r in rooms && !(msg.JoinRoom? && msg.roomId == r) && !(msg.LeaveRoom? && msg.roomId == r)
    ensures var next := NextRooms(rooms, userId, ws, msg, lookup);
            r in next && next[r] == rooms[r]
  {
  }

  /** A room that was missing still gains the joining user (the close does not stop the append). */
  lemma JoinUnknownRoomStillAppends(rooms: map<int, seq<User>>, userId: string, ws: Socket, roomId: int)
    ensures NextRooms(rooms, userId, ws, JoinRoom(roomId), RoomMissing)[roomId]
            == UsersOf(rooms, roomId) + [User(userId, ws)]
    ensures User(userId, ws) in NextRooms(rooms, userId, ws, JoinRoom(roomId), RoomMissing)[roomId]
  {
  }

  /** Joining twice lists the user twice: duplicates are not rejected. */
  lemma DoubleJoinDuplicates(rooms: map<int, seq<User>>, userId: string, ws: Socket, roomId: int)
    ensures var once := NextRooms(rooms, userId, ws, JoinRoom(roomId), RoomFound);
            var twice := NextRooms(once, userId, ws, JoinRoom(roomId), RoomFound);
            |twice[roomId]| == |UsersOf(rooms, roomId)| + 2
            && twice[roomId][|twice[roomId]| - 1] == twice[roomId][|twice[roomId]| - 2]
  {
  }

  /** After LEAVE_ROOM the user is in no entry of that room, whatever socket it joined with. */
  lemma LeaveRemovesEveryEntry(rooms: map<int, seq<User>>, userId: string, ws: Socket, roomId: int)
    ensures var next := NextRooms(rooms, userId, ws, LeaveRoom(roomId), RoomFound);
            forall u :: u in next[roomId] ==> u.userId != userId
  {
  }

  class Registry {
    var rooms: map<int, seq<User>>
    ghost var log: seq<Event>

    constructor ()
      ensures rooms == map[] && log == []
    {
      rooms := map[];
      log := [];
    }

    /**
     * The `connection` handler: without a URL nothing happens; a token that
     * does not check out gets "Invalid token." and a close, and no message
     * handler; otherwise the handler is installed for the returned user id.
     */
    method Connect(ws: Socket, hasUrl: bool, token: TokenCheck) returns (session: Option<string>)
      modifies this`log
      ensures !hasUrl ==> session == None && log == old(log)
      ensures hasUrl && CheckUser(token).None? ==>
                session == None && log == old(log) + [Sent(ws, Text("Invalid token.")), Closed(ws)]
      ensures hasUrl && CheckUser(token).Some? ==> session == CheckUser(token) && log == old(log)
    {
      if !hasUrl {
        return None;
      }
      var userId := CheckUser(token);
      if userId.None? {
        log := log + [Sent(ws, Text("Invalid token.")), Closed(ws)];
        return None;
      }
      session := userId;
    }

    /**
     * JOIN_ROOM: a failed lookup gets "Soemthing went wrong." and a close and
     * changes nothing; a missing room gets "Invalid room id." and a close, and
     * the user is appended all the same; otherwise the user is appended.
     */
    method Join(userId: string, ws: Socket, roomId: int, lookup: Lookup)
      modifies this
      ensures rooms == NextRooms(old(rooms), userId, ws, JoinRoom(roomId), lookup)
      ensures log == old(log) + JoinReplies(ws, lookup)
    {
      if lookup == LookupFailed {
        log := log + [Sent(ws, Text("Soemthing went wrong.")), Closed(ws)];
        return;
      }
      if lookup == RoomMissing {
        log := log + [Sent(ws, Text("Invalid room id.")), Closed(ws)];
      }
      rooms := rooms[roomId := UsersOf(rooms, roomId) + [User(userId, ws)]];
    }

    /** LEAVE_ROOM: every entry of the user leaves the room's list; nothing is sent. */
    method Leave(userId: string, roomId: int)
      modifies this`rooms
      ensures rooms == old(rooms)[roomId := RemoveUser(UsersOf(old(rooms), roomId), userId)]
    {
      var existing := UsersOf(rooms, roomId);
      rooms := rooms[roomId := RemoveUser(existing, userId)];
    }

    /**
     * CHAT: one persistence call, then, when the room has a list and the call
     * succeeded, `{type: "CHAT", message}` to each member in list order.
     */
    method Chat(userId: string, roomId: int, message: string, persisted: bool)
      modifies this`log
      ensures log == old(log) + [Persisted(roomId, userId, message)]
                   + (if persisted && roomId in rooms then Broadcast(rooms[roomId], message) else [])
    {
      log := log + [Persisted(roomId, userId, message)];
      if !persisted || roomId !in rooms {
        return;
      }
      var users := rooms[roomId];
      ghost var before := log;
      var i := 0;
      while i < |users|
        invariant 0 <= i <= |users|
        invariant log == before + Broadcast(users[..i], message)
      {
        assert users[..i + 1][..i] == users[..i];
        log := log + [Sent(users[i].ws, ChatBroadcast(message))];
        i := i + 1;
      }
      assert users[..i] == users;
    }

    /**
     * The `message` handler for the user `userId` on `ws`: dispatch on the
     * frame's type; any other type is ignored.
     */
    method HandleMessage(userId: string, ws: Socket, msg: ClientMessage, lookup: Lookup, persisted: bool)
      modifies this
      ensures rooms == NextRooms(old(rooms), userId, ws, msg, lookup)
      ensures msg.ChatMsg? ==>
                log == old(log) + [Persisted(msg.roomId, userId, msg.message)]
                       + (if persisted && msg.roomId in rooms then Broadcast(rooms[msg.roomId], msg.message) else [])
      ensures msg.JoinRoom? ==> log == old(log) + JoinReplies(ws, lookup)
      ensures msg.LeaveRoom? || msg.Other? ==> log == old(log)
    {
      match msg {
        case JoinRoom(roomId) => Join(userId, ws, roomId, lookup);
        case LeaveRoom(roomId) => Leave(userId, roomId);
        case ChatMsg(roomId, message) => Chat(userId, roomId, message, persisted);
        case Other =>
      }
    }
  }
}
