/** The socket.io server of the chat application (server.js): the in-memory
    state kept between events and one method per `socket.on` handler. A
    handler takes the event payload together with the clock reading `now`
    and, where it mints one, the message `id`; it changes the state and
    returns the events it emits, in order, as `Emit` records. */
module ChatServer {
  import opened Text
  import opened ChatTypes
  import opened Registry
  import opened Ledger

  /** `chatRooms`, sent to every user on `connection_success`. */
  const ChatRooms: seq<string> := ["general", "random", "help", "tech", "gaming"]

  /** Where an event goes. */
  datatype Target =
    | Direct(sid: SocketId)                          // socket.emit
    | ToRoom(room: string)                           // io.to(room).emit; a socket id names that socket's own room
    | BroadcastRoom(room: string, except: SocketId)  // socket.to(room).emit, socket.broadcast.to(room).emit
    | Broadcast(except: SocketId)                    // socket.broadcast.emit

  /** The fields of a `send_message` payload that the server reads. */
  datatype MessageData = MessageData(room: string, user: string, avatar: string, message: string, timestamp: int)

  /** `{ ...messageData, id, serverTimestamp, readBy: [messageData.user] }`. */
  datatype PublicMessage = PublicMessage(data: MessageData, id: int, serverTimestamp: int, readBy: seq<string>)

  /** The payload of each event the server emits. */
  datatype Payload =
    | UserJoined(user: string, message: string, timestamp: int, onlineUsers: seq<User>)
    | NewNotification(notification: Notification)
    | ConnectionSuccess(message: string, self: User, onlineUsers: seq<User>, rooms: seq<string>)
    | NewMessage(publicMessage: PublicMessage)
    | UnreadCountUpdate(count: nat)
    | NewPrivateMessage(privateMessage: PrivateMessage)
    | PrivateMessageSent(privateMessage: PrivateMessage, status: string)
    | MessageReadReceipt(messageId: int, readBy: string, readAt: int)
    | AllNotificationsMarkedRead
    | UserJoinedRoom(user: string, room: string, timestamp: int)
    | UserStatusUpdated(user: string, status: string, timestamp: int)
    | UserTyping(user: string, isTyping: bool)
    | UserLeft(user: string, message: string, timestamp: int, onlineUsers: seq<User>)

  datatype Emit = Emit(target: Target, payload: Payload)

  /** The event name each payload travels under. */
  function EventName(p: Payload): string {
    match p
    case UserJoined(_, _, _, _) => "user_joined"
    case NewNotification(_) => "new_notification"
    case ConnectionSuccess(_, _, _, _) => "connection_success"
    case NewMessage(_) => "new_message"
    case UnreadCountUpdate(_) => "unread_count_update"
    case NewPrivateMessage(_) => "new_private_message"
    case PrivateMessageSent(_, _) => "private_message_sent"
    case MessageReadReceipt(_, _, _) => "message_read_receipt"
    case AllNotificationsMarkedRead => "all_notifications_marked_read"
    case UserJoinedRoom(_, _, _) => "user_joined_room"
    case UserStatusUpdated(_, _, _) => "user_status_updated"
    case UserTyping(_, _) => "user_typing"
    case UserLeft(_, _, _, _) => "user_left"
  }

  // ---------------------------------------------------------------------
  // The notification objects the handlers build

  /** Sent on `user_join`; never stored. */
  function Welcome(now: int): Notification {
    Notification(now, "welcome", "Welcome to ChatApp!",
      Some("You have successfully joined the chat. Start messaging now!"), now, None, None, false)
  }

  /** Sent to each user the room-activity fan-out reaches. */
  function RoomActivityAlert(data: MessageData, now: int): (n: Notification)
    ensures n.message == Some(data.user + ": " + Take(data.message, 50) + "...")
    ensures |Take(data.message, 50)| <= 50 && Take(data.message, 50) <= data.message
    ensures n.room == Some(data.room) && !n.read
  {
    Notification(now, "room_activity", "New message in #" + data.room,
      Some(data.user + ": " + Take(data.message, 50) + "..."), now, Some(data.room), None, false)
  }

  /** What the fan-out stores: the same title, but no message and no room. */
  function RoomActivityRecord(room: string, now: int): Notification {
    Notification(now, "room_activity", "New message in #" + room, None, now, None, None, false)
  }

  /** Sent to an online recipient of a direct message and, identically,
      stored for an offline one. */
  function PrivateAlert(from: string, text: string, now: int): Notification {
    Notification(now, "private_message", "New message from " + from, Some(Take(text, 50)), now, None, Some(from), false)
  }

  /** What is stored for an online recipient: no message and no `from`. */
  function PrivateRecord(from: string, now: int): Notification {
    Notification(now, "private_message", "New message from " + from, None, now, None, None, false)
  }

  /** Sent on `join_room`; never stored. */
  function RoomJoined(room: string, now: int): Notification {
    Notification(now, "room_join", "Joined #" + room, Some("You have joined the " + room + " room"), now, Some(room), None, false)
  }

  /** `previousRoom` is truthy: present and not the empty string. */
  predicate Truthy(o: Option<string>) {
    o.Some? && o.value != ""
  }

  /** The read-receipt match on `from` clears the record stored for an
      offline recipient but never the one stored for an online recipient. */
  lemma ReceiptClearsOnlyOfflineRecords(from: string, text: string, now: int)
    ensures Selects(PrivateFrom(from), PrivateAlert(from, text, now))
    ensures forall f :: !Selects(PrivateFrom(f), PrivateRecord(from, now))
  {
  }

  // ---------------------------------------------------------------------
  // The room-activity fan-out of `send_message`, as a function of the
  // users visited so far

  datatype Fan = Fan(out: seq<Emit>, ledger: Ledger)

  /** One visit of `activeUsers.forEach`: the socket `userId` is alerted,
      and its user's ledger extended, unless the sender's rooms hold the
      target room or it is the sender's own socket. */
  function Visit(users: map<SocketId, User>, userId: SocketId, sender: SocketId,
                 senderRooms: set<string>, data: MessageData, now: int, prev: Fan): Fan
    requires userId in users
  {
    if data.room !in senderRooms && userId != sender then
      var name := users[userId].username;
      var written := LedgerOf(prev.ledger, name) + [RoomActivityRecord(data.room, now)];
      Fan(prev.out + [Emit(ToRoom(userId), NewNotification(RoomActivityAlert(data, now))),
                      Emit(ToRoom(userId), UnreadCountUpdate(CountUnread(written)))],
          prev.ledger[name := written])
    else prev
  }

  /** What `activeUsers.forEach` has emitted and stored after visiting the
      sockets of `order`. The test reads the sending socket's rooms. */
  function Fanout(users: map<SocketId, User>, order: seq<SocketId>, sender: SocketId,
                  senderRooms: set<string>, data: MessageData, now: int, ledger: Ledger): Fan
    requires forall s :: s in order ==> s in users
  {
    if order == [] then Fan([], ledger)
    else
      Visit(users, order[|order| - 1], sender, senderRooms, data, now,
            Fanout(users, order[..|order| - 1], sender, senderRooms, data, now, ledger))
  }

  /** Visiting one more socket of `order`. */
  lemma FanoutStep(users: map<SocketId, User>, order: seq<SocketId>, i: nat, sender: SocketId,
                   senderRooms: set<string>, data: MessageData, now: int, ledger: Ledger)
    requires forall s :: s in order ==> s in users
    requires i < |order|
    ensures Fanout(users, order[..i + 1], sender, senderRooms, data, now, ledger)
         == Visit(users, order[i], sender, senderRooms, data, now,
                  Fanout(users, order[..i], sender, senderRooms, data, now, ledger))
  {
    assert order[..i + 1][..i] == order[..i];
  }

  /** The `activeUsers.forEach` loop of `send_message`. */
  method FanOutAlerts(users: map<SocketId, User>, order: seq<SocketId>, sender: SocketId,
                      senderRooms: set<string>, data: MessageData, now: int, ledger0: Ledger)
    returns (fan: seq<Emit>, ledger: Ledger)
    requires forall s :: s in order ==> s in users
    ensures Fan(fan, ledger) == Fanout(users, order, sender, senderRooms, data, now, ledger0)
  {
    ledger := ledger0;
    fan := [];
    var i := 0;
    while i < |order|
      invariant 0 <= i <= |order|
      invariant Fanout(users, order[..i], sender, senderRooms, data, now, ledger0) == Fan(fan, ledger)
    {
      var userId := order[i];
      var user := users[userId];
      FanoutStep(users, order, i, sender, senderRooms, data, now, ledger0);
      if data.room !in senderRooms && userId != sender {
        var notifications := LedgerOf(ledger, user.username);
        ledger := ledger[user.username := notifications + [RoomActivityRecord(data.room, now)]];
        fan := fan + [Emit(ToRoom(userId), NewNotification(RoomActivityAlert(data, now))),
                      Emit(ToRoom(userId), UnreadCountUpdate(CountUnread(ledger[user.username])))];
      }
      i := i + 1;
    }
    assert order[..i] == order;
  }

  /** A visit only appends, and only events for the visited socket, which
      is never the sender; when the test passes, the alert comes first. */
  lemma VisitShape(users: map<SocketId, User>, userId: SocketId, sender: SocketId,
                   senderRooms: set<string>, data: MessageData, now: int, prev: Fan)
    requires userId in users
    ensures var v := Visit(users, userId, sender, senderRooms, data, now, prev).out;
      prev.out <= v
      && (|v| > |prev.out| ==> userId != sender)
      && (forall k :: |prev.out| <= k < |v| ==> v[k].target == ToRoom(userId))
      && (data.room !in senderRooms && userId != sender ==>
            |v| > |prev.out| && v[|prev.out|] == Emit(ToRoom(userId), NewNotification(RoomActivityAlert(data, now))))
  {
  }

  /** The number of sockets in `order`, other than the sender, whose user is `name`. */
  function Addressed(users: map<SocketId, User>, order: seq<SocketId>, sender: SocketId, name: string): (k: nat)
    requires forall s :: s in order ==> s in users
    ensures k <= |order|
  {
    if order == [] then 0
    else
      var userId := order[|order| - 1];
      Addressed(users, order[..|order| - 1], sender, name)
        + (if userId != sender && users[userId].username == name then 1 else 0)
  }

  function Repeat<T>(x: T, k: nat): (r: seq<T>)
    ensures |r| == k && forall i :: 0 <= i < k ==> r[i] == x
  {
    seq(k, _ => x)
  }

  lemma RepeatSnoc<T>(prefix: seq<T>, x: T, k: nat)
    ensures prefix + Repeat(x, k) + [x] == prefix + Repeat(x, k + 1)
  {
    assert Repeat(x, k) + [x] == Repeat(x, k + 1);
  }

  /** A sender whose own rooms hold the target room triggers no fan-out. */
  lemma {:induction false} FanoutQuietWhenSenderInRoom(users: map<SocketId, User>, order: seq<SocketId>, sender: SocketId,
                                                      senderRooms: set<string>, data: MessageData, now: int, ledger: Ledger)
    requires forall s :: s in order ==> s in users
    requires data.room in senderRooms
    ensures Fanout(users, order, sender, senderRooms, data, now, ledger) == Fan([], ledger)
  {
    if order != [] {
      FanoutQuietWhenSenderInRoom(users, order[..|order| - 1], sender, senderRooms, data, now, ledger);
    }
  }

  /** Every event goes to the own room of a socket in `order` other than `sender`. */
  predicate OwnRoomsOfOthers(es: seq<Emit>, sender: SocketId, order: seq<SocketId>) {
    forall k :: 0 <= k < |es| ==>
      es[k].target.ToRoom? && es[k].target.room != sender && es[k].target.room in order
  }

  /** Every fan-out event goes to the own room of a visited socket other than the sender. */
  lemma {:induction false} FanoutNeverTargetsSender(users: map<SocketId, User>, order: seq<SocketId>, sender: SocketId,
                                                   senderRooms: set<string>, data: MessageData, now: int, ledger: Ledger)
    requires forall s :: s in order ==> s in users
    ensures OwnRoomsOfOthers(Fanout(users, order, sender, senderRooms, data, now, ledger).out, sender, order)
  {
    if order != [] {
      var init := order[..|order| - 1];
      var last := order[|order| - 1];
      FanoutNeverTargetsSender(users, init, sender, senderRooms, data, now, ledger);
      var before := Fanout(users, init, sender, senderRooms, data, now, ledger);
      VisitShape(users, last, sender, senderRooms, data, now, before);
      var prev := before.out;
      var out := Visit(users, last, sender, senderRooms, data, now, before).out;
      forall k | 0 <= k < |out|
        ensures out[k].target.ToRoom? && out[k].target.room != sender && out[k].target.room in order
      {
        if k < |prev| {
          assert out[k] == prev[k];
          assert prev[k].target.room in init;
        }
      }
    }
  }

  /** Every socket of `order` other than `sender` is sent `p` in its own room. */
  predicate Alerted(es: seq<Emit>, order: seq<SocketId>, sender: SocketId, p: Payload) {
    forall j :: 0 <= j < |order| && order[j] != sender ==> Emit(ToRoom(order[j]), p) in es
  }

  /** When the sender's rooms lack the target room, every other visited
      socket is sent the room-activity alert. */
  lemma {:induction false} FanoutReachesEveryOther(users: map<SocketId, User>, order: seq<SocketId>, sender: SocketId,
                                                  senderRooms: set<string>, data: MessageData, now: int, ledger: Ledger)
    requires forall s :: s in order ==> s in users
    requires data.room !in senderRooms
    ensures Alerted(Fanout(users, order, sender, senderRooms, data, now, ledger).out, order, sender,
                    NewNotification(RoomActivityAlert(data, now)))
  {
    if order != [] {
      var init := order[..|order| - 1];
      var last := order[|order| - 1];
      FanoutReachesEveryOther(users, init, sender, senderRooms, data, now, ledger);
      var before := Fanout(users, init, sender, senderRooms, data, now, ledger);
      VisitShape(users, last, sender, senderRooms, data, now, before);
      var prev := before.out;
      var out := Visit(users, last, sender, senderRooms, data, now, before).out;
      var alert := NewNotification(RoomActivityAlert(data, now));
      assert Alerted(prev, init, sender, alert);
      assert out == prev + out[|prev|..];
      forall j | 0 <= j < |order| && order[j] != sender
        ensures Emit(ToRoom(order[j]), alert) in out
      {
        if j < |init| {
          assert order[j] == init[j];
          assert Emit(ToRoom(init[j]), alert) in prev;
        } else {
          assert out[|prev|] == Emit(ToRoom(last), alert);
        }
      }
    }
  }

  /** The fan-out appends one room-activity record to a user's ledger per
      visited socket, other than the sender, that belongs to that user. */
  lemma {:induction false} FanoutLedger(users: map<SocketId, User>, order: seq<SocketId>, sender: SocketId,
                                       senderRooms: set<string>, data: MessageData, now: int, ledger: Ledger, name: string)
    requires forall s :: s in order ==> s in users
    requires data.room !in senderRooms
    ensures LedgerOf(Fanout(users, order, sender, senderRooms, data, now, ledger).ledger, name)
         == LedgerOf(ledger, name) + Repeat(RoomActivityRecord(data.room, now), Addressed(users, order, sender, name))
  {
    if order != [] {
      var init := order[..|order| - 1];
      FanoutLedger(users, init, sender, senderRooms, data, now, ledger, name);
      var rec := RoomActivityRecord(data.room, now);
      var k := Addressed(users, init, sender, name);
      var last := order[|order| - 1];
      if last != sender && users[last].username == name {
        RepeatSnoc(LedgerOf(ledger, name), rec, k);
      }
    }
  }

  // ---------------------------------------------------------------------
  // The server state

  /** A stored conversation: every message is filed under the key of its own
      pair of users, and carries `readAt` exactly when it is read. */
  predicate Conversation(key: string, ms: seq<PrivateMessage>) {
    forall i :: 0 <= i < |ms| ==>
      ConversationKey(ms[i].from, ms[i].to) == key && (ms[i].read <==> ms[i].readAt.Some?)
  }

  /** The online users: keyed by their own socket id, listed once each in
      join order, and all connected. */
  predicate Registered(users: map<SocketId, User>, order: seq<SocketId>, rooms: map<SocketId, set<string>>) {
    Ordered(users, order)
    && forall s :: s in users ==> users[s].id == s && s in rooms
  }

  /** Every conversation is well formed under its key. */
  predicate Filed(conversations: map<string, seq<PrivateMessage>>) {
    forall key :: key in conversations ==> Conversation(key, conversations[key])
  }

  /** Filing a new message under its own pair's key keeps the store well formed. */
  lemma FiledAppend(conversations: map<string, seq<PrivateMessage>>, key: string, pm: PrivateMessage)
    requires Filed(conversations)
    requires ConversationKey(pm.from, pm.to) == key && (pm.read <==> pm.readAt.Some?)
    ensures Filed(conversations[key := (if key in conversations then conversations[key] else []) + [pm]])
  {
    var ms := (if key in conversations then conversations[key] else []) + [pm];
    assert Conversation(key, ms);
  }

  /** Marking a stored message read, with its time, keeps the store well formed. */
  lemma FiledMark(conversations: map<string, seq<PrivateMessage>>, key: string, i: nat, now: int)
    requires Filed(conversations) && key in conversations && i < |conversations[key]|
    ensures var ms := conversations[key];
      Filed(conversations[key := ms[i := ms[i].(read := true, readAt := Some(now))]])
  {
    var ms := conversations[key];
    assert Conversation(key, ms[i := ms[i].(read := true, readAt := Some(now))]);
  }

  /** Registering a user under its own socket keeps the roster consistent. */
  lemma RegisteredAfterJoin(users: map<SocketId, User>, order: seq<SocketId>, rooms: map<SocketId, set<string>>,
                            sid: SocketId, user: User, joined: set<string>)
    requires Registered(users, order, rooms) && user.id == sid
    ensures Registered(users[sid := user], OrderAfterSet(order, sid), rooms[sid := joined])
  {
    OrderedAfterSet(users, order, sid, user);
  }

  /** Dropping a socket from the users and the connections keeps the roster consistent. */
  lemma RegisteredAfterLeave(users: map<SocketId, User>, order: seq<SocketId>, rooms: map<SocketId, set<string>>,
                             sid: SocketId)
    requires Registered(users, order, rooms)
    ensures Registered(users - {sid}, Without(order, sid), rooms - {sid})
  {
    OrderedAfterDelete(users, order, sid);
  }

  class Server {
    var activeUsers: map<SocketId, User>
    var joinOrder: seq<SocketId>                     // insertion order of `activeUsers`
    var privateMessages: map<string, seq<PrivateMessage>>
    var userNotifications: Ledger
    var socketRooms: map<SocketId, set<string>>      // `socket.rooms` of every connected socket

    ghost predicate Valid()
      reads this
    {
      Registered(activeUsers, joinOrder, socketRooms) && Filed(privateMessages)
    }

    constructor ()
      ensures Valid()
      ensures activeUsers == map[] && joinOrder == [] && privateMessages == map[]
      ensures userNotifications == map[] && socketRooms == map[]
    {
      activeUsers := map[];
      joinOrder := [];
      privateMessages := map[];
      userNotifications := map[];
      socketRooms := map[];
    }

    /** The rooms of a socket; none once it has disconnected. */
    function RoomsOf(sid: SocketId): set<string>
      reads this
    {
      if sid in socketRooms then socketRooms[sid] else {}
    }

    /** The socket of the first online user, in join order, with that name. */
    function SocketOf(name: string): (r: Option<SocketId>)
      reads this
      requires Valid()
    {
      FindByName(activeUsers, joinOrder, name)
    }

    /** The connected sockets an emit reaches. */
    function Recipients(t: Target): (r: set<SocketId>)
      reads this
      ensures r <= socketRooms.Keys
      ensures (t.BroadcastRoom? || t.Broadcast?) ==> t.except !in r
    {
      match t
      case Direct(s) => if s in socketRooms then {s} else {}
      case ToRoom(room) => set s | s in socketRooms && room in socketRooms[s]
      case BroadcastRoom(room, e) => set s | s in socketRooms && room in socketRooms[s] && s != e
      case Broadcast(e) => set s | s in socketRooms && s != e
    }

    /** The 'connection' event: a new socket starts in its own room. */
    method Connect(sid: SocketId)
      requires Valid() && sid !in socketRooms
      modifies this
      ensures Valid()
      ensures socketRooms == old(socketRooms)[sid := {sid}]
      ensures sid in Recipients(ToRoom(sid))
      ensures activeUsers == old(activeUsers) && joinOrder == old(joinOrder)
      ensures privateMessages == old(privateMessages) && userNotifications == old(userNotifications)
    {
      socketRooms := socketRooms[sid := {sid}];
    }

    /** `user_join`: registers the user under this socket, joins 'general' and
        empties the user's ledger. */
    method UserJoin(sid: SocketId, username: string, avatar: string, now: int) returns (out: seq<Emit>)
      requires Valid()
      modifies this
      ensures Valid()
      ensures activeUsers == old(activeUsers)[sid := User(sid, username, avatar, now, "online")]
      ensures joinOrder == OrderAfterSet(old(joinOrder), sid)
      ensures socketRooms == old(socketRooms)[sid := old(RoomsOf(sid)) + {"general"}]
      ensures userNotifications == old(userNotifications)[username := []]
      ensures privateMessages == old(privateMessages)
      ensures User(sid, username, avatar, now, "online") in Roster(activeUsers, joinOrder)
      ensures out == [Emit(Broadcast(sid), UserJoined(username, username + " joined the chat", now, Roster(activeUsers, joinOrder))),
                      Emit(Direct(sid), NewNotification(Welcome(now))),
                      Emit(Direct(sid), ConnectionSuccess("Connected successfully", User(sid, username, avatar, now, "online"),
                                                          Roster(activeUsers, joinOrder), ChatRooms))]
    {
      var user := User(sid, username, avatar, now, "online");
      RegisteredAfterJoin(activeUsers, joinOrder, socketRooms, sid, user, RoomsOf(sid) + {"general"});
      activeUsers := activeUsers[sid := user];
      joinOrder := OrderAfterSet(joinOrder, sid);
      socketRooms := socketRooms[sid := RoomsOf(sid) + {"general"}];
      userNotifications := userNotifications[username := []];
      var roster := Roster(activeUsers, joinOrder);
      RosterHas(activeUsers, joinOrder, sid);
      out := [Emit(Broadcast(sid), UserJoined(username, username + " joined the chat", now, roster)),
              Emit(Direct(sid), NewNotification(Welcome(now))),
              Emit(Direct(sid), ConnectionSuccess("Connected successfully", user, roster, ChatRooms))];
    }

    /** `send_message`: relays the message to its room, then runs the
        room-activity fan-out over the online users in join order. */
    method SendMessage(sid: SocketId, data: MessageData, id: int, now: int) returns (out: seq<Emit>)
      requires Valid()
      modifies this
      ensures Valid()
      ensures var fan := Fanout(activeUsers, joinOrder, sid, RoomsOf(sid), data, now, old(userNotifications));
        out == [Emit(ToRoom(data.room), NewMessage(PublicMessage(data, id, now, [data.user])))] + fan.out
        && userNotifications == fan.ledger
      ensures activeUsers == old(activeUsers) && joinOrder == old(joinOrder)
      ensures socketRooms == old(socketRooms) && privateMessages == old(privateMessages)
    {
      out := [Emit(ToRoom(data.room), NewMessage(PublicMessage(data, id, now, [data.user])))];
      var fan, ledger := FanOutAlerts(activeUsers, joinOrder, sid, RoomsOf(sid), data, now, userNotifications);
      userNotifications := ledger;
      out := out + fan;
    }

    /** `send_private_message`: files the message under the pair's key, then
        delivers it if the recipient is online and records a notification
        for the recipient either way. */
    method SendPrivateMessage(sid: SocketId, from: string, to: string, text: string, id: int, now: int)
      returns (out: seq<Emit>)
      requires Valid()
      modifies this
      ensures Valid()
      ensures var pm := PrivateMessage(id, from, to, text, now, false, None);
        var key := ConversationKey(from, to);
        privateMessages == old(privateMessages)[key := (if key in old(privateMessages) then old(privateMessages)[key] else []) + [pm]]
      ensures var pm := PrivateMessage(id, from, to, text, now, false, None);
        match old(SocketOf(to))
        case Some(r) =>
          userNotifications == old(userNotifications)[to := LedgerOf(old(userNotifications), to) + [PrivateRecord(from, now)]]
          && out == [Emit(ToRoom(r), NewPrivateMessage(pm)),
                     Emit(ToRoom(r), NewNotification(PrivateAlert(from, text, now))),
                     Emit(ToRoom(r), UnreadCountUpdate(CountUnread(userNotifications[to]))),
                     Emit(Direct(sid), PrivateMessageSent(pm, "delivered"))]
        case None =>
          userNotifications == old(userNotifications)[to := LedgerOf(old(userNotifications), to) + [PrivateAlert(from, text, now)]]
          && out == [Emit(Direct(sid), PrivateMessageSent(pm, "pending"))]
      ensures activeUsers == old(activeUsers) && joinOrder == old(joinOrder) && socketRooms == old(socketRooms)
    {
      var privateMessage := PrivateMessage(id, from, to, text, now, false, None);
      var conversationId := ConversationKey(from, to);
      var conversation := if conversationId in privateMessages then privateMessages[conversationId] else [];
      FiledAppend(privateMessages, conversationId, privateMessage);
      privateMessages := privateMessages[conversationId := conversation + [privateMessage]];
      var recipient := SocketOf(to);
      if recipient.Some? {
        var r := recipient.value;
        var notifications := LedgerOf(userNotifications, to);
        userNotifications := userNotifications[to := notifications + [PrivateRecord(from, now)]];
        out := [Emit(ToRoom(r), NewPrivateMessage(privateMessage)),
                Emit(ToRoom(r), NewNotification(PrivateAlert(from, text, now))),
                Emit(ToRoom(r), UnreadCountUpdate(CountUnread(userNotifications[to]))),
                Emit(Direct(sid), PrivateMessageSent(privateMessage, "delivered"))];
      } else {
        var notifications := LedgerOf(userNotifications, to);
        userNotifications := userNotifications[to := notifications + [PrivateAlert(from, text, now)]];
        out := [Emit(Direct(sid), PrivateMessageSent(privateMessage, "pending"))];
      }
    }

    /** `message_read`: marks the first message of the pair's conversation
        with that id as read, clears the reader's matching notifications and
        sends the reader's count and, if the sender is online, a receipt. */
    method MessageRead(sid: SocketId, from: string, to: string, messageId: int, now: int) returns (out: seq<Emit>)
      requires Valid()
      modifies this
      ensures Valid()
      ensures var key := ConversationKey(from, to);
        (key !in old(privateMessages) || FirstWithId(old(privateMessages)[key], messageId).None?) ==>
          out == [] && privateMessages == old(privateMessages) && userNotifications == old(userNotifications)
      ensures var key := ConversationKey(from, to);
        key in old(privateMessages) && FirstWithId(old(privateMessages)[key], messageId).Some? ==>
          var ms := old(privateMessages)[key];
          var i := FirstWithId(ms, messageId).value;
          privateMessages == old(privateMessages)[key := ms[i := ms[i].(read := true, readAt := Some(now))]]
          && userNotifications == old(userNotifications)[to := MarkRead(LedgerOf(old(userNotifications), to), PrivateFrom(from))]
          && out == [Emit(ToRoom(sid), UnreadCountUpdate(CountUnread(userNotifications[to])))]
                    + (match SocketOf(from)
                       case Some(s) => [Emit(ToRoom(s), MessageReadReceipt(messageId, to, now))]
                       case None => [])
      ensures activeUsers == old(activeUsers) && joinOrder == old(joinOrder) && socketRooms == old(socketRooms)
    {
      out := [];
      var conversationId := ConversationKey(from, to);
      if conversationId in privateMessages {
        var messages := privateMessages[conversationId];
        var found := FirstWithId(messages, messageId);
        if found.Some? {
          var i := found.value;
          var message := messages[i].(read := true, readAt := Some(now));
          FiledMark(privateMessages, conversationId, i, now);
          privateMessages := privateMessages[conversationId := messages[i := message]];
          var updated := MarkRead(LedgerOf(userNotifications, to), PrivateFrom(from));
          userNotifications := userNotifications[to := updated];
          out := [Emit(ToRoom(sid), UnreadCountUpdate(CountUnread(updated)))];
          var sender := SocketOf(from);
          if sender.Some? {
            out := out + [Emit(ToRoom(sender.value), MessageReadReceipt(messageId, to, now))];
          }
        }
      }
    }

    /** `mark_notification_read`: marks the caller's records with that id. */
    method MarkNotificationRead(sid: SocketId, notificationId: int) returns (out: seq<Emit>)
      requires Valid()
      modifies this
      ensures Valid()
      ensures sid !in old(activeUsers) ==> out == [] && userNotifications == old(userNotifications)
      ensures sid in old(activeUsers) ==>
        var name := old(activeUsers)[sid].username;
        userNotifications == old(userNotifications)[name := MarkRead(LedgerOf(old(userNotifications), name), ById(notificationId))]
        && out == [Emit(Direct(sid), UnreadCountUpdate(CountUnread(userNotifications[name])))]
      ensures activeUsers == old(activeUsers) && joinOrder == old(joinOrder)
      ensures socketRooms == old(socketRooms) && privateMessages == old(privateMessages)
    {
      out := [];
      if sid in activeUsers {
        var user := activeUsers[sid];
        var updated := MarkRead(LedgerOf(userNotifications, user.username), ById(notificationId));
        userNotifications := userNotifications[user.username := updated];
        out := [Emit(Direct(sid), UnreadCountUpdate(CountUnread(updated)))];
      }
    }

    /** `mark_all_notifications_read`: marks every record of the caller's
        ledger and reports a count of 0, which is then the true count. */
    method MarkAllNotificationsRead(sid: SocketId) returns (out: seq<Emit>)
      requires Valid()
      modifies this
      ensures Valid()
      ensures sid !in old(activeUsers) ==> out == [] && userNotifications == old(userNotifications)
      ensures sid in old(activeUsers) ==>
        var name := old(activeUsers)[sid].username;
        userNotifications == old(userNotifications)[name := MarkRead(LedgerOf(old(userNotifications), name), Every)]
        && CountUnread(userNotifications[name]) == 0
        && out == [Emit(Direct(sid), UnreadCountUpdate(0)), Emit(Direct(sid), AllNotificationsMarkedRead)]
      ensures activeUsers == old(activeUsers) && joinOrder == old(joinOrder)
      ensures socketRooms == old(socketRooms) && privateMessages == old(privateMessages)
    {
      out := [];
      if sid in activeUsers {
        var user := activeUsers[sid];
        var updated := MarkRead(LedgerOf(userNotifications, user.username), Every);
        MarkEveryLeavesNoneUnread(LedgerOf(userNotifications, user.username));
        userNotifications := userNotifications[user.username := updated];
        out := [Emit(Direct(sid), UnreadCountUpdate(0)), Emit(Direct(sid), AllNotificationsMarkedRead)];
      }
    }

    /** `join_room`: leaves the previous room when one is given, joins the
        new one unchecked, tells the room and the caller. */
    method JoinRoom(sid: SocketId, user: string, previousRoom: Option<string>, newRoom: string, now: int)
      returns (out: seq<Emit>)
      requires Valid()
      modifies this
      ensures Valid()
      ensures socketRooms == old(socketRooms)[sid :=
        (if Truthy(previousRoom) then old(RoomsOf(sid)) - {previousRoom.value} else old(RoomsOf(sid))) + {newRoom}]
      ensures newRoom in RoomsOf(sid)
      ensures Truthy(previousRoom) && previousRoom.value != newRoom ==> previousRoom.value !in RoomsOf(sid)
      ensures out == [Emit(BroadcastRoom(newRoom, sid), UserJoinedRoom(user, newRoom, now)),
                      Emit(Direct(sid), NewNotification(RoomJoined(newRoom, now)))]
      ensures activeUsers == old(activeUsers) && joinOrder == old(joinOrder)
      ensures privateMessages == old(privateMessages) && userNotifications == old(userNotifications)
    {
      if Truthy(previousRoom) {
        socketRooms := socketRooms[sid := RoomsOf(sid) - {previousRoom.value}];
      }
      socketRooms := socketRooms[sid := RoomsOf(sid) + {newRoom}];
      out := [Emit(BroadcastRoom(newRoom, sid), UserJoinedRoom(user, newRoom, now)),
              Emit(Direct(sid), NewNotification(RoomJoined(newRoom, now)))];
    }

    /** `user_status_change`: updates the caller's status and tells the others. */
    method UserStatusChange(sid: SocketId, status: string, now: int) returns (out: seq<Emit>)
      requires Valid()
      modifies this
      ensures Valid()
      ensures sid !in old(activeUsers) ==> out == [] && activeUsers == old(activeUsers)
      ensures sid in old(activeUsers) ==>
        activeUsers == old(activeUsers)[sid := old(activeUsers)[sid].(status := status)]
        && out == [Emit(Broadcast(sid), UserStatusUpdated(old(activeUsers)[sid].username, status, now))]
      ensures joinOrder == old(joinOrder) && socketRooms == old(socketRooms)
      ensures privateMessages == old(privateMessages) && userNotifications == old(userNotifications)
    {
      out := [];
      if sid in activeUsers {
        var user := activeUsers[sid];
        activeUsers := activeUsers[sid := user.(status := status)];
        out := [Emit(Broadcast(sid), UserStatusUpdated(user.username, status, now))];
      }
    }

    /** `typing_start` and `typing_stop`: relayed to the room, sender excluded. */
    method Typing(sid: SocketId, room: string, user: string, isTyping: bool) returns (out: seq<Emit>)
      ensures |out| == 1 && out[0].target == BroadcastRoom(room, sid)
      ensures sid !in Recipients(out[0].target)
      ensures out[0].payload == UserTyping(user, isTyping)
    {
      out := [Emit(BroadcastRoom(room, sid), UserTyping(user, isTyping))];
    }

    /** `disconnect`: the socket leaves all its rooms; a registered user is
        removed and the others are told, with the roster that remains. */
    method Disconnect(sid: SocketId, now: int) returns (out: seq<Emit>)
      requires Valid()
      modifies this
      ensures Valid()
      ensures sid !in activeUsers && sid !in socketRooms
      ensures socketRooms == old(socketRooms) - {sid}
      ensures activeUsers == old(activeUsers) - {sid} && joinOrder == Without(old(joinOrder), sid)
      ensures forall u :: u in Roster(activeUsers, joinOrder) ==> u.id != sid
      ensures sid !in old(activeUsers) ==> out == []
      ensures sid in old(activeUsers) ==>
        var name := old(activeUsers)[sid].username;
        out == [Emit(Broadcast(sid), UserLeft(name, name + " left the chat", now, Roster(activeUsers, joinOrder))),
                Emit(Broadcast(sid), UserStatusUpdated(name, "offline", now))]
      ensures old(sid !in activeUsers && sid !in socketRooms) ==> out == [] && unchanged(this)
      ensures privateMessages == old(privateMessages) && userNotifications == old(userNotifications)
    {
      socketRooms := socketRooms - {sid};
      out := [];
      if sid in activeUsers {
        var user := activeUsers[sid];
        RegisteredAfterLeave(activeUsers, joinOrder, old(socketRooms), sid);
        activeUsers := activeUsers - {sid};
        joinOrder := Without(joinOrder, sid);
        var roster := Roster(activeUsers, joinOrder);
        out := [Emit(Broadcast(sid), UserLeft(user.username, user.username + " left the chat", now, roster)),
                Emit(Broadcast(sid), UserStatusUpdated(user.username, "offline", now))];
      } else {
        assert sid !in joinOrder;
        if sid !in old(socketRooms) {
          assert socketRooms == old(socketRooms);
        }
      }
    }
  }

  /** `messages.find(msg => msg.id === messageId)`, as the index found. */
  function FirstWithId(ms: seq<PrivateMessage>, messageId: int): (r: Option<nat>)
    ensures r.None? <==> forall j :: 0 <= j < |ms| ==> ms[j].id != messageId
    ensures r.Some? ==> r.value < |ms| && ms[r.value].id == messageId
                        && forall j :: 0 <= j < r.value ==> ms[j].id != messageId
  {
    if ms == [] then None
    else if ms[0].id == messageId then Some(0)
    else
      match FirstWithId(ms[1..], messageId)
      case None => None
      case Some(i) => Some(i + 1)
  }
}
