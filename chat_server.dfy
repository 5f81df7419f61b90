/**
 * The realtime chat server (`ChatWebSocketServer`): a session registry `clients` from user id to
 * socket, a room index `conversationClients` from conversation id to the set of user ids that
 * joined it, and on every socket the set of conversations that socket joined.
 *
 * Transport, JSON and the database are abstracted: an outgoing frame is appended to the ghost
 * `outbox`, a database write is appended to a ghost log, and every database read or failure is a
 * parameter (or, for the participant table that joins are checked against, the constant oracle
 * `hasAccess`).
 */
module ChatServer {
  import opened Common
  import Strings

  type UserId = string
  type ConversationId = string
  type MessageId = string

  /** What `verifyToken` decodes from a valid token. */
  datatype TokenUser = TokenUser(id: UserId, email: string, role: string, isActive: bool)

  /** The parts of the upgrade request that the handshake reads. */
  datatype Handshake = Handshake(queryToken: Option<string>, authorization: Option<string>)

  /** The message as broadcast in a `new_message` event. */
  datatype ChatMessage = ChatMessage(
    id: MessageId, conversationId: ConversationId, senderId: UserId,
    content: string, messageType: string, createdAt: int)

  /** Server-to-client events. */
  datatype Event =
    | Connected(userId: UserId)
    | JoinedConversation(conversationId: ConversationId)
    | UserJoined(userId: UserId, conversationId: ConversationId)
    | UserLeft(userId: UserId, conversationId: ConversationId)
    | NewMessage(message: ChatMessage)
    | Typing(userId: UserId, conversationId: ConversationId)
    | MessageRead(messageId: MessageId, userId: UserId, conversationId: ConversationId)
    | Error(text: string)

  /** Client-to-server messages, after `JSON.parse`. */
  datatype ClientMessage =
    | JoinConversation(conversationId: ConversationId)
    | LeaveConversation(conversationId: ConversationId)
    | SendMessage(conversationId: ConversationId, content: string)
    | TypingNotice(conversationId: ConversationId)
    | ReadMessage(conversationId: ConversationId, messageId: MessageId)
    | UnknownType       // parsed, but `type` matches no case of the switch
    | Unparseable       // `JSON.parse` threw

  datatype CloseFrame = CloseFrame(code: int, reason: string)

  /** One row of the participant query: the participant and `notification_preferences.push`
      when that is a boolean (`None` when preferences are null or have no boolean `push`). */
  datatype ParticipantRow = ParticipantRow(id: UserId, push: Option<bool>)

  /** A `messages` row written by `send_message`. */
  datatype StoredMessage = StoredMessage(conversationId: ConversationId, senderId: UserId, content: string, messageType: string)

  /** A `notifications` row written for an offline participant. */
  datatype Notification = Notification(
    userId: UserId, kind: string, title: string, message: string,
    conversationId: ConversationId, senderId: UserId)

  /** What the database calls of one `send_message` return: `None` where the call throws. */
  datatype SendOutcome = SendOutcome(
    inserted: Option<(MessageId, int)>,
    lastMessageUpdated: bool,
    participants: Option<seq<ParticipantRow>>,
    senderName: Option<Option<(string, string)>>,
    notificationInserted: UserId -> bool)

  /** A connection. `isOpen` is `readyState === OPEN`; `closedWith` records `ws.close(code, reason)`. */
  class Socket {
    var userId: Option<UserId>
    var conversationIds: set<ConversationId>
    var isOpen: bool
    var closedWith: Option<CloseFrame>

    constructor ()
      ensures userId == None && conversationIds == {} && isOpen && closedWith == None
    {
      userId, conversationIds, isOpen, closedWith := None, {}, true, None;
    }
  }

  /** An outgoing frame: `to.send(JSON.stringify(event))`. */
  datatype Frame = Frame(to: Socket, event: Event)

  /** The token of the handshake: the `token` query parameter, else the `Authorization` header with
      the first `"Bearer "` removed; an empty string counts as no token. */
  function TokenOf(h: Handshake): (r: Option<string>)
    ensures r.Some? ==> r.value != ""
    ensures h.queryToken.Some? && h.queryToken.value != "" ==> r == h.queryToken
    ensures (h.queryToken.None? || h.queryToken.value == "") && h.authorization.None? ==> r.None?
  {
    if h.queryToken.Some? && h.queryToken.value != "" then h.queryToken
    else if h.authorization.Some? then
      var t := Strings.ReplaceFirst(h.authorization.value, "Bearer ", "");
      if t != "" then Some(t) else None
    else None
  }

  /** A standard `Bearer <token>` header yields the token. */
  lemma BearerHeaderToken(token: string)
    requires token != ""
    ensures TokenOf(Handshake(None, Some("Bearer " + token))) == Some(token)
  {
    var h := "Bearer " + token;
    assert h[..|"Bearer "|] == "Bearer ";
    assert h[|"Bearer "|..] == token;
    assert Strings.ReplaceFirst(h, "Bearer ", "") == token;
  }

  /** The room index after `user` joins `conv`: the room is created if absent. */
  function JoinRoom(rooms: map<ConversationId, set<UserId>>, conv: ConversationId, user: UserId): (r: map<ConversationId, set<UserId>>)
    ensures r.Keys == rooms.Keys + {conv}
    ensures user in r[conv]
    ensures forall c | c in rooms && c != conv :: r[c] == rooms[c]
  {
    rooms[conv := (if conv in rooms then rooms[conv] else {}) + {user}]
  }

  /** The room index after `user` leaves `conv`: the room entry goes when it becomes empty. */
  function LeaveRoom(rooms: map<ConversationId, set<UserId>>, conv: ConversationId, user: UserId): map<ConversationId, set<UserId>> {
    if conv !in rooms then rooms
    else if rooms[conv] - {user} == {} then rooms - {conv}
    else rooms[conv := rooms[conv] - {user}]
  }

  /** Every stored room has a member. */
  ghost predicate RoomsNonEmpty(rooms: map<ConversationId, set<UserId>>) {
    forall c | c in rooms :: rooms[c] != {}
  }

  /** Leaving keeps every room non-empty, removes the user from that room and touches no other room. */
  lemma LeavePreservesRooms(rooms: map<ConversationId, set<UserId>>, conv: ConversationId, user: UserId)
    requires RoomsNonEmpty(rooms)
    ensures RoomsNonEmpty(LeaveRoom(rooms, conv, user))
    ensures conv in LeaveRoom(rooms, conv, user) ==> user !in LeaveRoom(rooms, conv, user)[conv]
    ensures forall c | c != conv :: (c in rooms <==> c in LeaveRoom(rooms, conv, user))
    ensures forall c | c != conv && c in rooms :: LeaveRoom(rooms, conv, user)[c] == rooms[c]
  {
  }

  /** Joining twice is joining once. */
  lemma JoinIdempotent(rooms: map<ConversationId, set<UserId>>, conv: ConversationId, user: UserId)
    ensures JoinRoom(JoinRoom(rooms, conv, user), conv, user) == JoinRoom(rooms, conv, user)
  {
  }

  /** Joining a room one was not in and leaving it again restores the room index. */
  lemma JoinThenLeave(rooms: map<ConversationId, set<UserId>>, conv: ConversationId, user: UserId)
    requires RoomsNonEmpty(rooms)
    requires conv !in rooms || user !in rooms[conv]
    ensures LeaveRoom(JoinRoom(rooms, conv, user), conv, user) == rooms
  {
    if conv in rooms {
      assert (rooms[conv] + {user}) - {user} == rooms[conv];
    }
  }

  /** Leaving a room the user is not in changes nothing (given non-empty rooms). */
  lemma LeaveNotJoined(rooms: map<ConversationId, set<UserId>>, conv: ConversationId, user: UserId)
    requires RoomsNonEmpty(rooms)
    requires conv !in rooms || user !in rooms[conv]
    ensures LeaveRoom(rooms, conv, user) == rooms
  {
    if conv in rooms {
      assert rooms[conv] - {user} == rooms[conv];
    }
  }

  /** The room index after `user` leaves every room in `convs`, as disconnection does. */
  function LeaveRooms(rooms: map<ConversationId, set<UserId>>, convs: set<ConversationId>, user: UserId): map<ConversationId, set<UserId>> {
    map c | c in rooms && !(c in convs && rooms[c] - {user} == {}) :: if c in convs then rooms[c] - {user} else rooms[c]
  }

  /** Leaving one more room extends `LeaveRooms` by one `LeaveRoom`. */
  lemma LeaveRoomsStep(rooms: map<ConversationId, set<UserId>>, done: set<ConversationId>, conv: ConversationId, user: UserId)
    ensures LeaveRoom(LeaveRooms(rooms, done, user), conv, user) == LeaveRooms(rooms, done + {conv}, user)
  {
    var a := LeaveRoom(LeaveRooms(rooms, done, user), conv, user);
    var b := LeaveRooms(rooms, done + {conv}, user);
    assert a.Keys == b.Keys;
    forall c | c in a ensures a[c] == b[c] {
    }
  }

  /** Removing `c` from the rooms still to leave adds it to the rooms left. */
  lemma LeftGrows(convs: set<ConversationId>, left: set<ConversationId>, c: ConversationId)
    requires c in left && left <= convs
    ensures convs - (left - {c}) == (convs - left) + {c}
  {
  }

  /** One room more left during a disconnection: the room index and the `user_left` frames both advance by `c`. */
  lemma LeaveOneMore(clients: map<UserId, Socket>, rooms0: map<ConversationId, set<UserId>>, convs: set<ConversationId>,
                     left: set<ConversationId>, c: ConversationId, user: UserId, targets: map<ConversationId, set<Socket>>,
                     sent: seq<Frame>, added: seq<Frame>)
    requires c in left && left <= convs
    requires c in targets && targets[c] == RoomTargets(clients, rooms0, c, Some(user))
    requires IsFanOut(added, RoomTargets(clients, LeaveRoom(LeaveRooms(rooms0, convs - left, user), c, user), c, Some(user)),
                      UserLeft(user, c))
    requires LeftFrames(sent, user, convs - left, targets)
    ensures LeaveRoom(LeaveRooms(rooms0, convs - left, user), c, user) == LeaveRooms(rooms0, convs - (left - {c}), user)
    ensures LeftFrames(sent + added, user, convs - (left - {c}), targets)
  {
    LeaveRoomsStep(rooms0, convs - left, c, user);
    LeftGrows(convs, left, c);
    LeaveRoomsKeepsRoomTargets(clients, rooms0, convs - (left - {c}), user, c);
    LeftFramesStep(sent, added, user, convs - left, c, targets);
  }

  /** After leaving every room in `convs`, the user is in none of them, and all rooms stay non-empty. */
  lemma LeaveRoomsRemovesUser(rooms: map<ConversationId, set<UserId>>, convs: set<ConversationId>, user: UserId)
    requires RoomsNonEmpty(rooms)
    ensures RoomsNonEmpty(LeaveRooms(rooms, convs, user))
    ensures forall c | c in convs && c in LeaveRooms(rooms, convs, user) :: user !in LeaveRooms(rooms, convs, user)[c]
    ensures forall c | c !in convs :: (c in rooms <==> c in LeaveRooms(rooms, convs, user))
  {
  }

  /** The notification title: `Новое сообщение от <first> <last>`, or `Someone` when the sender row is missing. */
  function NotificationTitle(senderName: Option<(string, string)>): string {
    "Новое сообщение от " + (match senderName
                             case Some(n) => n.0 + " " + n.1
                             case None => "Someone")
  }

  /** `content.substring(0, 100)`. */
  function Preview(content: string): (r: string)
    ensures |r| <= 100 && |r| <= |content| && r == content[..|r|]
    ensures |content| <= 100 ==> r == content
  {
    if |content| <= 100 then content else content[..100]
  }

  /** A participant is notified when it is not the sender, not registered and has not set `push` to `false`. */
  predicate WantsNotification(p: ParticipantRow, sender: UserId, online: set<UserId>) {
    p.id != sender && p.id !in online && p.push != Some(false)
  }

  /**
   * The notification rows written by the loop over participant rows: one per participant that wants a
   * notification, in row order, stopping at the first insert that throws (the exception leaves the loop).
   */
  function PlannedNotifications(rows: seq<ParticipantRow>, sender: UserId, online: set<UserId>,
                                inserted: UserId -> bool, title: string, conv: ConversationId, content: string): (r: seq<Notification>)
    ensures |r| <= |rows|
    ensures forall k | 0 <= k < |r| ::
      r[k].userId != sender && r[k].userId !in online && r[k].kind == "new_message" && r[k].title == title
      && r[k].message == Preview(content) && r[k].conversationId == conv && r[k].senderId == sender
      && exists j | 0 <= j < |rows| :: rows[j].id == r[k].userId && WantsNotification(rows[j], sender, online)
    decreases |rows|
  {
    if rows == [] then []
    else if !WantsNotification(rows[0], sender, online) then
      PlannedNotifications(rows[1..], sender, online, inserted, title, conv, content)
    else if !inserted(rows[0].id) then []
    else
      var rest := PlannedNotifications(rows[1..], sender, online, inserted, title, conv, content);
      assert forall k | 0 <= k < |rest| :: exists j | 0 <= j < |rows| :: rows[j].id == rest[k].userId && WantsNotification(rows[j], sender, online) by {
        forall k | 0 <= k < |rest| ensures exists j | 0 <= j < |rows| :: rows[j].id == rest[k].userId && WantsNotification(rows[j], sender, online) {
          var j :| 0 <= j < |rows[1..]| && rows[1..][j].id == rest[k].userId && WantsNotification(rows[1..][j], sender, online);
          assert rows[j + 1] == rows[1..][j];
        }
      }
      [Notification(rows[0].id, "new_message", title, Preview(content), conv, sender)] + rest
  }

  /** The rows written when no insert throws. */
  function AllNotified(rows: seq<ParticipantRow>, sender: UserId, online: set<UserId>): seq<UserId> {
    if rows == [] then []
    else (if WantsNotification(rows[0], sender, online) then [rows[0].id] else []) + AllNotified(rows[1..], sender, online)
  }

  /** Whatever inserts fail, the users notified are a prefix of those that would be notified when none fails;
      when no insert fails, exactly the participants that want a notification get one, in row order. */
  lemma {:induction false} NotifiedPrefix(rows: seq<ParticipantRow>, sender: UserId, online: set<UserId>,
                                          inserted: UserId -> bool, title: string, conv: ConversationId, content: string)
    ensures var r := PlannedNotifications(rows, sender, online, inserted, title, conv, content);
      var all := AllNotified(rows, sender, online);
      |r| <= |all| && (forall k | 0 <= k < |r| :: r[k].userId == all[k])
      && ((forall j | 0 <= j < |rows| :: inserted(rows[j].id)) ==> |r| == |all|)
    decreases |rows|
  {
    if rows != [] {
      var r := PlannedNotifications(rows, sender, online, inserted, title, conv, content);
      var all := AllNotified(rows, sender, online);
      var rest := PlannedNotifications(rows[1..], sender, online, inserted, title, conv, content);
      var allRest := AllNotified(rows[1..], sender, online);
      NotifiedPrefix(rows[1..], sender, online, inserted, title, conv, content);
      if !WantsNotification(rows[0], sender, online) {
        assert r == rest && all == allRest;
        AllInsertedTail(rows, inserted);
      } else if !inserted(rows[0].id) {
        assert r == [];
      } else {
        assert r == [r[0]] + rest && all == [rows[0].id] + allRest;
        AllInsertedTail(rows, inserted);
      }
    }
  }

  lemma AllInsertedTail(rows: seq<ParticipantRow>, inserted: UserId -> bool)
    requires rows != []
    ensures (forall j | 0 <= j < |rows| :: inserted(rows[j].id)) ==> forall j | 0 <= j < |rows[1..]| :: inserted(rows[1..][j].id)
  {
    if forall j | 0 <= j < |rows| :: inserted(rows[j].id) {
      forall j | 0 <= j < |rows[1..]| ensures inserted(rows[1..][j].id) {
        assert rows[1..][j] == rows[j + 1];
      }
    }
  }

  /** A participant that is registered gets no notification row. */
  lemma OnlineGetsNoNotification(rows: seq<ParticipantRow>, sender: UserId, online: set<UserId>,
                                 inserted: UserId -> bool, title: string, conv: ConversationId, content: string, p: UserId)
    requires p in online
    ensures forall n | n in PlannedNotifications(rows, sender, online, inserted, title, conv, content) :: n.userId != p
  {
  }

  /** Every frame of `fs` carries `ev` and goes to a distinct socket, and every socket of `targets` gets one. */
  ghost predicate IsFanOut(fs: seq<Frame>, targets: set<Socket>, ev: Event) {
    && (forall i | 0 <= i < |fs| :: fs[i].event == ev && fs[i].to in targets)
    && (forall i, j | 0 <= i < j < |fs| :: fs[i].to != fs[j].to)
    && (forall s | s in targets :: exists i | 0 <= i < |fs| :: fs[i].to == s)
  }

  /** The sockets of `users` that a broadcast reaches: registered, OPEN and not excluded. */
  ghost function Reached(clients: map<UserId, Socket>, users: set<UserId>, exclude: Option<UserId>): set<Socket>
    reads clients.Values`isOpen
  {
    set u | u in users && Some(u) != exclude && u in clients && clients[u].isOpen :: clients[u]
  }

  /** Removing the excluded user from a room does not change who the room's broadcasts reach. */
  lemma ReachedWithoutExcluded(clients: map<UserId, Socket>, users: set<UserId>, u: UserId)
    ensures Reached(clients, users - {u}, Some(u)) == Reached(clients, users, Some(u))
    ensures users - {u} == {} ==> Reached(clients, users, Some(u)) == {}
  {
  }

  /** Every socket in `clients` carries the id it is registered under, so distinct users have distinct sockets. */
  ghost predicate Registered(clients: map<UserId, Socket>)
    reads clients.Values`userId
  {
    forall u | u in clients :: clients[u].userId == Some(u)
  }

  /** Reaching one more user adds at most that user's socket. */
  lemma ReachedAdd(clients: map<UserId, Socket>, users: set<UserId>, u: UserId, exclude: Option<UserId>)
    ensures Reached(clients, users + {u}, exclude)
         == Reached(clients, users, exclude) + (if Some(u) != exclude && u in clients && clients[u].isOpen then {clients[u]} else {})
  {
  }

  /** A user not yet reached has a socket not yet reached. */
  lemma ReachedFresh(clients: map<UserId, Socket>, users: set<UserId>, u: UserId, exclude: Option<UserId>)
    requires Registered(clients) && u in clients && u !in users
    ensures clients[u] !in Reached(clients, users, exclude)
  {
    forall v | v in users && v in clients
      ensures clients[v] != clients[u]
    {
      assert clients[v].userId == Some(v);
    }
  }

  /** Sending to one more socket outside the targets extends a fan-out. */
  lemma FanOutExtend(fs: seq<Frame>, targets: set<Socket>, s: Socket, ev: Event)
    requires IsFanOut(fs, targets, ev) && s !in targets
    ensures IsFanOut(fs + [Frame(s, ev)], targets + {s}, ev)
  {
    var gs := fs + [Frame(s, ev)];
    forall t | t in targets + {s}
      ensures exists i | 0 <= i < |gs| :: gs[i].to == t
    {
      if t == s {
        assert gs[|fs|].to == t;
      } else {
        var i :| 0 <= i < |fs| && fs[i].to == t;
        assert gs[i].to == t;
      }
    }
  }

  /** The loop of `broadcastToConversation`: one frame for each member that is registered, OPEN and not
      excluded, visited in any order. */
  method FanOut(clients: map<UserId, Socket>, members: set<UserId>, ev: Event, exclude: Option<UserId>)
    returns (frames: seq<Frame>)
    requires Registered(clients)
    ensures IsFanOut(frames, Reached(clients, members, exclude), ev)
  {
    var pending := members;
    frames := [];
    while pending != {}
      invariant pending <= members
      invariant IsFanOut(frames, Reached(clients, members - pending, exclude), ev)
      decreases pending
    {
      var u :| u in pending;
      ghost var done := members - pending;
      pending := pending - {u};
      assert members - pending == done + {u};
      ReachedAdd(clients, done, u, exclude);
      if Some(u) != exclude && u in clients && clients[u].isOpen {
        ReachedFresh(clients, done, u, exclude);
        FanOutExtend(frames, Reached(clients, done, exclude), clients[u], ev);
        frames := frames + [Frame(clients[u], ev)];
      }
    }
    assert members - pending == members;
  }

  /** The sockets a broadcast to room `conv` of `rooms` reaches; none for an absent room. */
  ghost function RoomTargets(clients: map<UserId, Socket>, rooms: map<ConversationId, set<UserId>>, conv: ConversationId,
                             exclude: Option<UserId>): set<Socket>
    reads clients.Values`isOpen
  {
    if conv in rooms then Reached(clients, rooms[conv], exclude) else {}
  }

  /** Leaving any rooms keeps, in every room, the sockets reached by broadcasts that exclude the leaver. */
  lemma LeaveRoomsKeepsRoomTargets(clients: map<UserId, Socket>, rooms: map<ConversationId, set<UserId>>, convs: set<ConversationId>,
                                   user: UserId, d: ConversationId)
    ensures RoomTargets(clients, LeaveRooms(rooms, convs, user), d, Some(user)) == RoomTargets(clients, rooms, d, Some(user))
  {
    if d in convs && d in rooms {
      ReachedWithoutExcluded(clients, rooms[d], user);
    }
  }

  /** `fs` are `user_left` frames of `user`, each to a target of a conversation in `done`, no frame is
      sent twice, and every target of every conversation in `done` has one: exactly one frame per target
      and conversation. */
  ghost predicate LeftFrames(fs: seq<Frame>, user: UserId, done: set<ConversationId>, targets: map<ConversationId, set<Socket>>) {
    && (forall i | 0 <= i < |fs| ::
          fs[i].event.UserLeft? && fs[i].event.userId == user && fs[i].event.conversationId in done
          && fs[i].event.conversationId in targets && fs[i].to in targets[fs[i].event.conversationId])
    && (forall i | 0 <= i < |fs| :: fs[i] !in fs[..i])
    && (forall c, s | c in done && c in targets && s in targets[c] ::
          exists i | 0 <= i < |fs| :: fs[i] == Frame(s, UserLeft(user, c)))
  }

  /** Leaving one more conversation appends its fan-out. */
  lemma LeftFramesStep(fs: seq<Frame>, gs: seq<Frame>, user: UserId, done: set<ConversationId>, c: ConversationId,
                       targets: map<ConversationId, set<Socket>>)
    requires LeftFrames(fs, user, done, targets)
    requires c !in done && c in targets && IsFanOut(gs, targets[c], UserLeft(user, c))
    ensures LeftFrames(fs + gs, user, done + {c}, targets)
  {
    var hs := fs + gs;
    forall j | 0 <= j < |hs|
      ensures hs[j] !in hs[..j]
    {
      if j < |fs| {
        assert hs[..j] == fs[..j];
      } else {
        assert hs[..j] == fs + gs[..j - |fs|];
        assert hs[j] == gs[j - |fs|];
        forall i | 0 <= i < j ensures hs[i] != hs[j] {
          if i < |fs| {
            assert hs[i] == fs[i];
          } else {
            assert hs[i] == gs[i - |fs|];
          }
        }
      }
    }
    forall d, s | d in done + {c} && d in targets && s in targets[d]
      ensures exists i | 0 <= i < |hs| :: hs[i] == Frame(s, UserLeft(user, d))
    {
      if d in done {
        var i :| 0 <= i < |fs| && fs[i] == Frame(s, UserLeft(user, d));
        assert hs[i] == fs[i];
      } else {
        var j :| 0 <= j < |gs| && gs[j].to == s;
        assert hs[|fs| + j] == gs[j];
      }
    }
    forall i | 0 <= i < |hs|
      ensures hs[i].event.UserLeft? && hs[i].event.userId == user && hs[i].event.conversationId in done + {c}
          && hs[i].event.conversationId in targets && hs[i].to in targets[hs[i].event.conversationId]
    {
      if i >= |fs| {
        assert hs[i] == gs[i - |fs|];
      }
    }
  }

  class ChatWebSocketServer {
    var clients: map<UserId, Socket>
    var conversationClients: map<ConversationId, set<UserId>>
    /** The access query `SELECT 1 FROM conversations c WHERE c.id = $1 AND $2 = ANY(c.participants)` has a row. */
    const hasAccess: (ConversationId, UserId) -> bool
    ghost var outbox: seq<Frame>
    ghost var messages: seq<StoredMessage>
    ghost var readMarks: seq<MessageId>
    ghost var notifications: seq<Notification>

    /** Rooms are never empty, every registered socket carries its user's id, and a user is only in a
        room whose conversation lists it as a participant. */
    ghost predicate Valid()
      reads this`clients, this`conversationClients, clients.Values`userId
    {
      && RoomsNonEmpty(conversationClients)
      && Registered(clients)
      && (forall c, u | c in conversationClients && u in conversationClients[c] :: hasAccess(c, u))
    }

    constructor (hasAccess: (ConversationId, UserId) -> bool)
      ensures Valid()
      ensures clients == map[] && conversationClients == map[]
      ensures this.hasAccess == hasAccess
      ensures outbox == [] && messages == [] && readMarks == [] && notifications == []
    {
      this.hasAccess := hasAccess;
      clients, conversationClients := map[], map[];
      outbox, messages, readMarks, notifications := [], [], [], [];
    }

    /** The sockets `broadcastToConversation(conv, _, exclude)` sends to; none for an absent room. */
    ghost function Targets(conv: ConversationId, exclude: Option<UserId>): set<Socket>
      reads this`clients, this`conversationClients, clients.Values`isOpen
    {
      RoomTargets(clients, conversationClients, conv, exclude)
    }

    /** A registered user outside a room never receives that room's broadcasts. */
    lemma NonMemberNotReached(conv: ConversationId, exclude: Option<UserId>, u: UserId)
      requires Valid()
      requires u in clients
      requires conv !in conversationClients || u !in conversationClients[conv]
      ensures clients[u] !in Targets(conv, exclude)
    {
      if conv in conversationClients {
        forall v | v in conversationClients[conv] && v in clients
          ensures clients[v] != clients[u]
        {
          assert clients[v].userId == Some(v);
        }
      }
    }

    /** `broadcastToConversation`: send `ev` to every registered, OPEN member of the room other than `exclude`. */
    method BroadcastToConversation(conv: ConversationId, ev: Event, exclude: Option<UserId>)
      requires Valid()
      modifies this`outbox
      ensures |outbox| >= |old(outbox)| && outbox[..|old(outbox)|] == old(outbox)
      ensures IsFanOut(outbox[|old(outbox)|..], Targets(conv, exclude), ev)
    {
      if conv !in conversationClients {
        assert outbox[|old(outbox)|..] == [];
        return;
      }
      var frames := FanOut(clients, conversationClients[conv], ev, exclude);
      outbox := outbox + frames;
      assert outbox[|old(outbox)|..] == frames;
    }

    /** `handleConnection`: register the socket under the verified user, or close it. */
    method HandleConnection(ws: Socket, request: Option<Handshake>, verifyToken: string -> Option<TokenUser>)
      requires Valid()
      requires ws.userId == None && ws.isOpen && ws !in clients.Values
      modifies this`clients, this`outbox, ws`userId, ws`conversationIds, ws`isOpen, ws`closedWith
      ensures Valid()
      ensures request.None? ==>
        clients == old(clients) && outbox == old(outbox) && ws.userId == None
        && !ws.isOpen && ws.closedWith == Some(CloseFrame(1011, "Server error"))
      ensures request.Some? && TokenOf(request.value).None? ==>
        clients == old(clients) && outbox == old(outbox) && ws.userId == None
        && !ws.isOpen && ws.closedWith == Some(CloseFrame(1008, "Authentication required"))
      ensures request.Some? && TokenOf(request.value).Some? && verifyToken(TokenOf(request.value).value).None? ==>
        clients == old(clients) && outbox == old(outbox) && ws.userId == None
        && !ws.isOpen && ws.closedWith == Some(CloseFrame(1008, "Invalid token"))
      ensures request.Some? && TokenOf(request.value).Some? && verifyToken(TokenOf(request.value).value).Some? ==>
        var user := verifyToken(TokenOf(request.value).value).value;
        clients == old(clients)[user.id := ws] && ws.userId == Some(user.id) && ws.conversationIds == {}
        && ws.isOpen && ws.closedWith == old(ws.closedWith)
        && outbox == old(outbox) + [Frame(ws, Connected(user.id))]
    {
      if request.None? {
        ws.isOpen, ws.closedWith := false, Some(CloseFrame(1011, "Server error"));
        return;
      }
      var token := TokenOf(request.value);
      if token.None? {
        ws.isOpen, ws.closedWith := false, Some(CloseFrame(1008, "Authentication required"));
        return;
      }
      var user := verifyToken(token.value);
      if user.None? {
        ws.isOpen, ws.closedWith := false, Some(CloseFrame(1008, "Invalid token"));
        return;
      }
      ws.userId := Some(user.value.id);
      ws.conversationIds := {};
      clients := clients[user.value.id := ws];
      outbox := outbox + [Frame(ws, Connected(user.value.id))];
    }

    /** `handleJoinConversation`: check access, then add the conversation to the socket and the user to the
        room, tell the rest of the room, and confirm to the joiner. A failing access query changes nothing. */
    method HandleJoinConversation(ws: Socket, conv: ConversationId, queryOk: bool)
      requires Valid() && ws.userId.Some?
      modifies this`conversationClients, this`outbox, ws`conversationIds
      ensures Valid()
      ensures !queryOk ==>
        conversationClients == old(conversationClients) && ws.conversationIds == old(ws.conversationIds) && outbox == old(outbox)
      ensures queryOk && !hasAccess(conv, ws.userId.value) ==>
        conversationClients == old(conversationClients) && ws.conversationIds == old(ws.conversationIds)
        && outbox == old(outbox) + [Frame(ws, Error("Access denied to conversation"))]
      ensures queryOk && hasAccess(conv, ws.userId.value) ==>
        conversationClients == JoinRoom(old(conversationClients), conv, ws.userId.value)
        && ws.conversationIds == old(ws.conversationIds) + {conv}
        && |outbox| > |old(outbox)| && outbox[..|old(outbox)|] == old(outbox)
        && outbox[|outbox| - 1] == Frame(ws, JoinedConversation(conv))
        && IsFanOut(outbox[|old(outbox)|..|outbox| - 1], Targets(conv, ws.userId), UserJoined(ws.userId.value, conv))
    {
      if !queryOk {
        return;
      }
      var user := ws.userId.value;
      if !hasAccess(conv, user) {
        outbox := outbox + [Frame(ws, Error("Access denied to conversation"))];
        return;
      }
      ws.conversationIds := ws.conversationIds + {conv};
      conversationClients := JoinRoom(conversationClients, conv, user);
      ghost var start := outbox;
      BroadcastToConversation(conv, UserJoined(user, conv), Some(user));
      ghost var mid := outbox;
      outbox := outbox + [Frame(ws, JoinedConversation(conv))];
      assert outbox[|start|..|outbox| - 1] == mid[|start|..];
    }

    /** `handleLeaveConversation`: drop the conversation from the socket and the user from the room
        (deleting the room when it empties), then tell the rest of the room. */
    method HandleLeaveConversation(ws: Socket, conv: ConversationId)
      requires Valid() && ws.userId.Some?
      modifies this`conversationClients, this`outbox, ws`conversationIds
      ensures Valid()
      ensures ws.conversationIds == old(ws.conversationIds) - {conv}
      ensures conversationClients == LeaveRoom(old(conversationClients), conv, ws.userId.value)
      ensures |outbox| >= |old(outbox)| && outbox[..|old(outbox)|] == old(outbox)
      ensures IsFanOut(outbox[|old(outbox)|..], Targets(conv, ws.userId), UserLeft(ws.userId.value, conv))
    {
      var user := ws.userId.value;
      ws.conversationIds := ws.conversationIds - {conv};
      LeavePreservesRooms(conversationClients, conv, user);
      conversationClients := LeaveRoom(conversationClients, conv, user);
      BroadcastToConversation(conv, UserLeft(user, conv), Some(user));
    }

    /** `handleTyping`: tell the room, except the typist. */
    method HandleTyping(ws: Socket, conv: ConversationId)
      requires Valid() && ws.userId.Some?
      modifies this`outbox
      ensures |outbox| >= |old(outbox)| && outbox[..|old(outbox)|] == old(outbox)
      ensures IsFanOut(outbox[|old(outbox)|..], Targets(conv, ws.userId), Typing(ws.userId.value, conv))
    {
      BroadcastToConversation(conv, Typing(ws.userId.value, conv), ws.userId);
    }

    /** `handleReadMessage`: mark the message read (no access check), then tell the whole room, reader included. */
    method HandleReadMessage(ws: Socket, conv: ConversationId, messageId: MessageId, updateOk: bool)
      requires Valid() && ws.userId.Some?
      modifies this`outbox, this`readMarks
      ensures !updateOk ==> outbox == old(outbox) && readMarks == old(readMarks)
      ensures updateOk ==>
        readMarks == old(readMarks) + [messageId]
        && |outbox| >= |old(outbox)| && outbox[..|old(outbox)|] == old(outbox)
        && IsFanOut(outbox[|old(outbox)|..], Targets(conv, None), MessageRead(messageId, ws.userId.value, conv))
    {
      if !updateOk {
        return;
      }
      readMarks := readMarks + [messageId];
      BroadcastToConversation(conv, MessageRead(messageId, ws.userId.value, conv), None);
    }

    /** `sendPushNotifications`: a notification row for every participant row (the query already leaves out the
        sender) whose user is not registered and has not set `push` to `false`, until an insert throws. */
    method SendPushNotifications(conv: ConversationId, sender: UserId, content: string,
                                 participants: Option<seq<ParticipantRow>>, senderName: Option<Option<(string, string)>>,
                                 inserted: UserId -> bool)
      modifies this`notifications
      ensures participants.None? || senderName.None? ==> notifications == old(notifications)
      ensures participants.Some? && senderName.Some? ==>
        notifications == old(notifications)
          + PlannedNotifications(participants.value, sender, clients.Keys, inserted, NotificationTitle(senderName.value), conv, content)
    {
      if participants.None? || senderName.None? {
        return;
      }
      var rows := participants.value;
      var title := NotificationTitle(senderName.value);
      var i := 0;
      while i < |rows|
        invariant 0 <= i <= |rows|
        invariant old(notifications) + PlannedNotifications(rows, sender, clients.Keys, inserted, title, conv, content)
               == notifications + PlannedNotifications(rows[i..], sender, clients.Keys, inserted, title, conv, content)
        decreases |rows| - i
      {
        assert rows[i..][1..] == rows[i + 1..];
        var p := rows[i];
        var isOnline := p.id in clients;
        if p.id != sender && !isOnline && p.push != Some(false) {
          if !inserted(p.id) {
            return;
          }
          notifications := notifications + [Notification(p.id, "new_message", title, Preview(content), conv, sender)];
        }
        i := i + 1;
      }
    }

    /** `handleSendMessage`: store the message, touch the conversation, broadcast it to the whole room
        (sender included), then notify offline participants. There is no access, membership or content check. */
    method HandleSendMessage(ws: Socket, conv: ConversationId, content: string, db: SendOutcome)
      requires Valid() && ws.userId.Some?
      modifies this`outbox, this`messages, this`notifications
      ensures db.inserted.None? ==>
        messages == old(messages) && outbox == old(outbox) && notifications == old(notifications)
      ensures db.inserted.Some? ==> messages == old(messages) + [StoredMessage(conv, ws.userId.value, content, "text")]
      ensures db.inserted.Some? && !db.lastMessageUpdated ==> outbox == old(outbox) && notifications == old(notifications)
      ensures db.inserted.Some? && db.lastMessageUpdated ==>
        var m := ChatMessage(db.inserted.value.0, conv, ws.userId.value, content, "text", db.inserted.value.1);
        |outbox| >= |old(outbox)| && outbox[..|old(outbox)|] == old(outbox)
        && IsFanOut(outbox[|old(outbox)|..], Targets(conv, None), NewMessage(m))
        && (db.participants.None? || db.senderName.None? ==> notifications == old(notifications))
        && (db.participants.Some? && db.senderName.Some? ==>
              notifications == old(notifications)
                + PlannedNotifications(db.participants.value, ws.userId.value, clients.Keys, db.notificationInserted,
                                       NotificationTitle(db.senderName.value), conv, content))
    {
      if db.inserted.None? {
        return;
      }
      var user := ws.userId.value;
      messages := messages + [StoredMessage(conv, user, content, "text")];
      if !db.lastMessageUpdated {
        return;
      }
      var m := ChatMessage(db.inserted.value.0, conv, user, content, "text", db.inserted.value.1);
      BroadcastToConversation(conv, NewMessage(m), None);
      SendPushNotifications(conv, user, content, db.participants, db.senderName, db.notificationInserted);
    }

    /** One `handleLeaveConversation` of a disconnection: the rooms left so far grow by `c`, and the
        `user_left` frames sent so far grow by `c`'s fan-out. */
    method LeaveWhileDisconnecting(ws: Socket, c: ConversationId, ghost rooms0: map<ConversationId, set<UserId>>,
                                   ghost convs: set<ConversationId>, ghost targets: map<ConversationId, set<Socket>>,
                                   ghost base: seq<Frame>, ghost sent: seq<Frame>) returns (ghost sentAfter: seq<Frame>)
      requires Valid() && ws.userId.Some? && outbox == base + sent
      requires c in ws.conversationIds && ws.conversationIds <= convs
      requires conversationClients == LeaveRooms(rooms0, convs - ws.conversationIds, ws.userId.value)
      requires c in targets && targets[c] == RoomTargets(clients, rooms0, c, ws.userId)
      requires LeftFrames(sent, ws.userId.value, convs - ws.conversationIds, targets)
      modifies this`conversationClients, this`outbox, ws`conversationIds
      ensures Valid()
      ensures ws.conversationIds == old(ws.conversationIds) - {c}
      ensures conversationClients == LeaveRooms(rooms0, convs - ws.conversationIds, ws.userId.value)
      ensures outbox == base + sentAfter
      ensures LeftFrames(sentAfter, ws.userId.value, convs - ws.conversationIds, targets)
    {
      var u := ws.userId.value;
      ghost var out1 := outbox;
      ghost var left := ws.conversationIds;
      HandleLeaveConversation(ws, c);
      ghost var added := outbox[|out1|..];
      LeaveOneMore(clients, rooms0, convs, left, c, u, targets, sent, added);
      sentAfter := sent + added;
      ConcatAssoc(base, sent, added);
    }

    /** The targets of each conversation of `convs` for a broadcast that excludes `exclude`. */
    ghost function TargetMap(convs: set<ConversationId>, exclude: Option<UserId>): (r: map<ConversationId, set<Socket>>)
      reads this`clients, this`conversationClients, clients.Values`isOpen
      ensures r.Keys == convs
    {
      map c | c in convs :: Targets(c, exclude)
    }

    /** The `forEach` of `handleDisconnection`: leave every conversation the socket joined. */
    method LeaveAllConversations(ws: Socket)
      requires Valid() && ws.userId.Some?
      modifies this`conversationClients, this`outbox, ws`conversationIds
      ensures Valid()
      ensures ws.conversationIds == {}
      ensures conversationClients == LeaveRooms(old(conversationClients), old(ws.conversationIds), ws.userId.value)
      ensures |outbox| >= |old(outbox)| && outbox[..|old(outbox)|] == old(outbox)
      ensures LeftFrames(outbox[|old(outbox)|..], ws.userId.value, old(ws.conversationIds), old(TargetMap(ws.conversationIds, ws.userId)))
    {
      ghost var convs := ws.conversationIds;
      ghost var T := TargetMap(convs, ws.userId);
      ghost var sent := LeaveEach(ws, convs, conversationClients, T);
      assert outbox[|old(outbox)|..] == sent;
    }

    /** The loop of `LeaveAllConversations`, over the rooms `convs` as they were (`rooms0`) and their
        targets `T`. */
    method LeaveEach(ws: Socket, ghost convs: set<ConversationId>, ghost rooms0: map<ConversationId, set<UserId>>,
                     ghost T: map<ConversationId, set<Socket>>) returns (ghost sent: seq<Frame>)
      requires Valid() && ws.userId.Some? && ws.conversationIds == convs && conversationClients == rooms0
      requires T == TargetMap(convs, ws.userId)
      modifies this`conversationClients, this`outbox, ws`conversationIds
      ensures Valid()
      ensures ws.conversationIds == {}
      ensures conversationClients == LeaveRooms(rooms0, convs, ws.userId.value)
      ensures outbox == old(outbox) + sent
      ensures LeftFrames(sent, ws.userId.value, convs, T)
    {
      var u := ws.userId.value;
      sent := [];
      assert LeaveRooms(rooms0, {}, u) == rooms0;
      while ws.conversationIds != {}
        invariant Valid() && ws.userId == Some(u)
        invariant ws.conversationIds <= convs
        invariant conversationClients == LeaveRooms(rooms0, convs - ws.conversationIds, u)
        invariant outbox == old(outbox) + sent
        invariant LeftFrames(sent, u, convs - ws.conversationIds, T)
        decreases ws.conversationIds
      {
        var c :| c in ws.conversationIds;
        sent := LeaveWhileDisconnecting(ws, c, rooms0, convs, T, old(outbox), sent);
      }
      assert convs - ws.conversationIds == convs;
    }

    /** `handleDisconnection`: for a socket with a (non-empty) user id, leave every conversation it joined, then
        unregister that user id, whichever socket is registered for it now. Each room's remaining members hear
        `user_left`. */
    method HandleDisconnection(ws: Socket)
      requires Valid()
      modifies this`conversationClients, this`outbox, this`clients, ws`conversationIds
      ensures Valid()
      ensures |outbox| >= |old(outbox)| && outbox[..|old(outbox)|] == old(outbox)
      ensures ws.userId.None? || ws.userId.value == "" ==>
        conversationClients == old(conversationClients) && clients == old(clients) && outbox == old(outbox)
        && ws.conversationIds == old(ws.conversationIds)
      ensures ws.userId.Some? && ws.userId.value != "" ==>
        conversationClients == LeaveRooms(old(conversationClients), old(ws.conversationIds), ws.userId.value)
        && clients == old(clients) - {ws.userId.value}
        && ws.conversationIds == {}
        && LeftFrames(outbox[|old(outbox)|..], ws.userId.value, old(ws.conversationIds), old(TargetMap(ws.conversationIds, ws.userId)))
    {
      if ws.userId.None? || ws.userId.value == "" {
        return;
      }
      LeaveAllConversations(ws);
      clients := clients - {ws.userId.value};
    }

    /** `handleMessage`: dispatch on the message type. An unknown type does nothing; a message that does not
        parse gets an error frame. The database outcomes of whichever handler runs are parameters. */
    method HandleMessage(ws: Socket, msg: ClientMessage, joinQueryOk: bool, send: SendOutcome, readUpdateOk: bool)
      requires Valid() && ws.userId.Some?
      modifies this`conversationClients, this`outbox, this`messages, this`notifications, this`readMarks, ws`conversationIds
      ensures Valid()
      ensures |outbox| >= |old(outbox)| && outbox[..|old(outbox)|] == old(outbox)
      ensures conversationClients == match msg
        case JoinConversation(c) =>
          if joinQueryOk && hasAccess(c, ws.userId.value) then JoinRoom(old(conversationClients), c, ws.userId.value)
          else old(conversationClients)
        case LeaveConversation(c) => LeaveRoom(old(conversationClients), c, ws.userId.value)
        case _ => old(conversationClients)
      ensures !msg.SendMessage? ==> messages == old(messages) && notifications == old(notifications)
      ensures !msg.ReadMessage? ==> readMarks == old(readMarks)
      ensures msg.JoinConversation? ==> var c := msg.conversationId;
        && (!joinQueryOk ==> outbox == old(outbox) && ws.conversationIds == old(ws.conversationIds))
        && (joinQueryOk && !hasAccess(c, ws.userId.value) ==>
              outbox == old(outbox) + [Frame(ws, Error("Access denied to conversation"))]
              && ws.conversationIds == old(ws.conversationIds))
        && (joinQueryOk && hasAccess(c, ws.userId.value) ==>
              ws.conversationIds == old(ws.conversationIds) + {c}
              && |outbox| > |old(outbox)| && outbox[|outbox| - 1] == Frame(ws, JoinedConversation(c))
              && IsFanOut(outbox[|old(outbox)|..|outbox| - 1], Targets(c, ws.userId), UserJoined(ws.userId.value, c)))
      ensures msg.LeaveConversation? ==>
        ws.conversationIds == old(ws.conversationIds) - {msg.conversationId}
        && IsFanOut(outbox[|old(outbox)|..], Targets(msg.conversationId, ws.userId),
                    UserLeft(ws.userId.value, msg.conversationId))
      ensures msg.TypingNotice? ==>
        ws.conversationIds == old(ws.conversationIds)
        && IsFanOut(outbox[|old(outbox)|..], Targets(msg.conversationId, ws.userId),
                    Typing(ws.userId.value, msg.conversationId))
      ensures msg.ReadMessage? ==> var c := msg.conversationId;
        && ws.conversationIds == old(ws.conversationIds)
        && (!readUpdateOk ==> outbox == old(outbox))
        && (readUpdateOk ==>
              readMarks == old(readMarks) + [msg.messageId]
              && IsFanOut(outbox[|old(outbox)|..], Targets(c, None), MessageRead(msg.messageId, ws.userId.value, c)))
      ensures msg.SendMessage? ==> var c := msg.conversationId;
        && ws.conversationIds == old(ws.conversationIds)
        && (send.inserted.None? || !send.lastMessageUpdated ==> outbox == old(outbox))
        && (send.inserted.Some? ==> messages == old(messages) + [StoredMessage(c, ws.userId.value, msg.content, "text")])
        && (send.inserted.Some? && send.lastMessageUpdated ==>
              IsFanOut(outbox[|old(outbox)|..], Targets(c, None),
                       NewMessage(ChatMessage(send.inserted.value.0, c, ws.userId.value, msg.content, "text",
                                              send.inserted.value.1))))
        && (send.inserted.None? || !send.lastMessageUpdated || send.participants.None? || send.senderName.None? ==>
              notifications == old(notifications))
        && (send.inserted.Some? && send.lastMessageUpdated && send.participants.Some? && send.senderName.Some? ==>
              notifications == old(notifications)
                + PlannedNotifications(send.participants.value, ws.userId.value, clients.Keys, send.notificationInserted,
                                       NotificationTitle(send.senderName.value), c, msg.content))
      ensures msg.UnknownType? ==> outbox == old(outbox) && ws.conversationIds == old(ws.conversationIds)
      ensures msg.Unparseable? ==>
        outbox == old(outbox) + [Frame(ws, Error("Failed to process message"))] && ws.conversationIds == old(ws.conversationIds)
    {
      match msg {
        case JoinConversation(c) => HandleJoinConversation(ws, c, joinQueryOk);
        case LeaveConversation(c) => HandleLeaveConversation(ws, c);
        case SendMessage(c, content) => HandleSendMessage(ws, c, content, send);
        case TypingNotice(c) => HandleTyping(ws, c);
        case ReadMessage(c, m) => HandleReadMessage(ws, c, m, readUpdateOk);
        case UnknownType =>
        case Unparseable => outbox := outbox + [Frame(ws, Error("Failed to process message"))];
      }
    }
  }

  /**
   * The same user connects twice; when the first connection closes, the user is unregistered although the
   * second connection is still open, so it no longer receives broadcasts and counts as offline for push
   * notifications.
   */
  method StaleDisconnectScenario() returns (secondOpen: bool, registered: bool)
    ensures secondOpen && !registered
  {
    var server := new ChatWebSocketServer((c: ConversationId, u: UserId) => true);
    var verify := (t: string) => if t == "tok" then Some(TokenUser("u1", "a@b.c", "jobseeker", true)) else None;
    var first := new Socket();
    server.HandleConnection(first, Some(Handshake(Some("tok"), None)), verify);
    var second := new Socket();
    server.HandleConnection(second, Some(Handshake(Some("tok"), None)), verify);
    server.HandleDisconnection(first);
    secondOpen := second.isOpen;
    registered := "u1" in server.clients;
  }
}
