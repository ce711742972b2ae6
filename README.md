# Chat application core, modelled in Dafny

This project models the logic of a small real-time chat application. The
application has a Node.js socket.io server and a React client.

The server keeps all of its state in memory:

- the online users, keyed by socket id, in the order they joined;
- the direct-message conversations, filed under a key built from the two usernames;
- a ledger of notification records for each username;
- a fixed list of rooms.

Each socket event handler changes that state and emits events. The model is
the class `ChatServer.Server`. It has one method per handler, and each method
returns the emitted events as `Emit(target, payload)` records. The socket's
room memberships are kept in an explicit map from socket id to a set of rooms.

The client side is modelled component by component:

- `SocketConnection.ReconnectController`: the reconnect controller, with
  exponential back-off and at most five retries as the code intends them
  (see "Left out" for what the mount-time closures make of this, and
  "Findings" for the manual retry);
- `SocketContext.ClientState`: the shared store of notifications,
  conversations and unread counts;
- `MessagePagination.Pager`: room history loaded page by page, and the merged
  list sorted by time;
- `ThrottledCallback.Throttle`: the throttle hook;
- the selection and formatting rules of the components: notification panel,
  notification bell, message search, direct chat, reactions and connection
  indicator.

Shared building blocks:

- `Text`: decimal rendering and its inverse, JavaScript `trim`, ASCII
  lower-casing, substring search and string order;
- `ChatTypes`: the records and the conversation key;
- `Registry`: a JavaScript `Map` with its insertion order;
- `Ledger`: the notification ledger and its mark-read updates;
- `Sequences`: `Array.prototype.filter`.

Clock readings (`now`), message ids (`id`) and the reconnect jitter are
parameters. Timestamps are integers of milliseconds.

Each handler is proved against a specification function. The main
properties proved are:

- the conversation key is symmetric;
- every `unread_count_update` carries the true number of unread records in
  the ledger just written;
- mark-read is idempotent, and it lowers the unread count by exactly the
  selected unread records;
- the room-activity fan-out never targets the sender, and it reaches every
  other online user exactly when the sender's own rooms lack the target room;
- registration keeps the join order a faithful listing of the online users;
- the back-off delay stays within its bounds;
- the notification list and the conversations stay within their 100-entry caps;
- the merged message list is sorted and is a permutation of its inputs;
- the reaction counts equal the multiplicities of the reactions and add up to
  the number of users.

## Model

| member | source | states |
|---|---|---|
| Text.Take | chat-app/server/server.js:95 | `substring(0, n)` is the prefix of length min(n, length) |
| Text.NatToStringRoundTrip | chat-app/client/src/context/SocketContext.jsx:64 | the decimal text of a count reads back as that count |
| Text.NatToStringInjective | chat-app/client/src/context/SocketContext.jsx:64 | different counts render differently |
| Text.Trim | chat-app/client/src/components/PrivateChat.jsx:31-36 | `trim()` gives the part of the input between its leading and its trailing white space, and that part neither starts nor ends with white space |
| Text.LeadingWhitespace | chat-app/client/src/components/PrivateChat.jsx:31-36 | everything the leading half of `trim()` drops is white space |
| Text.TrailingWhitespace | chat-app/client/src/components/PrivateChat.jsx:31-36 | everything the trailing half of `trim()` drops is white space |
| Text.TrimEmptyIffBlank | chat-app/client/src/components/MessageSearch.jsx:10 | a string trims to empty exactly when it is all white space |
| Text.ToLower | chat-app/client/src/components/MessageSearch.jsx:12-16 | lower-casing keeps the length and maps each character |
| Text.ContainsAt | chat-app/client/src/components/MessageSearch.jsx:16 | `includes` holds exactly when the term occurs at some offset |
| Text.StrLessIrreflexive | chat-app/server/server.js:131 | no string sorts before itself |
| Text.StrLessAsymmetric | chat-app/server/server.js:131 | two strings never sort before each other |
| Text.StrLessTotal | chat-app/server/server.js:131 | two different strings are always ordered |
| ChatTypes.ConversationKeySymmetric | chat-app/server/server.js:131 | `[from, to].sort().join('_')` gives the same key whichever user sends |
| ChatTypes.ConversationKeyOrdered | chat-app/server/server.js:131 | the key is one of the two joins, and the name that does not sort later comes first |
| ChatTypes.ConversationKeyCollision | chat-app/server/server.js:131 | two different pairs can share a key: ("a_b", "c") and ("a", "b_c") |
| ChatTypes.CountUnread | chat-app/server/server.js:113 | the unread count never exceeds the number of records |
| ChatTypes.CountUnreadAppend | chat-app/server/server.js:103-113 | appending one record raises the count by one exactly when that record is unread |
| ChatTypes.CountUnreadZero | chat-app/server/server.js:261-267 | the count is 0 exactly when every record is read |
| ChatTypes.CountUnreadIndices | chat-app/server/server.js:218 | the count equals the number of positions that hold an unread record |
| Registry.Without | chat-app/server/server.js:333 | `delete` removes exactly that key, and an absent key leaves the order as it was |
| Registry.WithoutAppend | chat-app/server/server.js:333 | removing a key from a concatenation removes it from each part, so the other keys keep their relative order |
| Registry.WithoutDistinct | chat-app/server/server.js:333 | after a delete, each key is still listed once |
| Registry.DistinctCard | chat-app/server/server.js:23 | distinct keys are as many as their listing |
| Registry.OrderAfterSet | chat-app/server/server.js:42 | `set` of a new key appends it; a key already present keeps its place |
| Registry.OrderedAfterSet | chat-app/server/server.js:42 | after `set`, the order lists every key exactly once |
| Registry.OrderedAfterDelete | chat-app/server/server.js:333 | after `delete`, the order lists every key exactly once |
| Registry.Roster | chat-app/server/server.js:53 | `Array.from(activeUsers.values())` lists the users in join order, one per key |
| Registry.RosterCoversUsers | chat-app/server/server.js:53 | the roster has one entry per key of the map, and every registered user is in it |
| Registry.RosterHas | chat-app/server/server.js:53 | every registered user appears in the roster |
| Registry.FindByName | chat-app/server/server.js:138-140 | the recipient lookup is None exactly when no online user has that name; otherwise it gives the first such user in join order |
| Ledger.LedgerOf | chat-app/server/server.js:102 | `userNotifications.get(name) \|\| []` |
| Ledger.MarkRead | chat-app/server/server.js:242-246 | the copied ledger has the same length; each selected record is set read and nothing else changes |
| Ledger.MarkReadIdempotent | chat-app/server/server.js:242-247 | marking twice gives the same ledger as marking once |
| Ledger.MarkReadUnreadCount | chat-app/server/server.js:250-252 | after marking, the unread records are exactly the unread records the selector did not pick |
| Ledger.MarkReadNeverRaisesCount | chat-app/server/server.js:209-219 | marking never raises the unread count |
| Ledger.MarkEveryLeavesNoneUnread | chat-app/server/server.js:261-267 | after mark-all the true count is 0, which is the count emitted |
| Ledger.PrivateFromNeedsSender | chat-app/server/server.js:210 | the read-receipt selector picks only direct-message records that carry that sender |
| ChatServer.RoomActivityAlert | chat-app/server/server.js:91-99 | the preview is the sender's name, then at most the first 50 characters of the text, then "..."; the alert is unread and names the room |
| ChatServer.ReceiptClearsOnlyOfflineRecords | chat-app/server/server.js:158-165 | the record stored for an online recipient has no `from`, so the read receipt never clears it; the one stored for an offline recipient is cleared |
| ChatServer.Addressed | chat-app/server/server.js:88-116 | the number of visited sockets of one user never exceeds the number visited |
| ChatServer.Repeat | chat-app/server/server.js:103-109 | k copies of one record |
| ChatServer.FanoutQuietWhenSenderInRoom | chat-app/server/server.js:89-90 | when the sender's own rooms hold the target room, the fan-out emits nothing and stores nothing |
| ChatServer.FanoutNeverTargetsSender | chat-app/server/server.js:88-116 | every fan-out event goes to the own room of another online socket, never to the sender |
| ChatServer.FanoutReachesEveryOther | chat-app/server/server.js:88-99 | when the sender's rooms lack the target room, every other online socket gets the room-activity alert |
| ChatServer.FanoutLedger | chat-app/server/server.js:102-109 | each user's ledger grows by one room-activity record per online socket of that user other than the sender |
| ChatServer.FanoutStep | chat-app/server/server.js:88-116 | visiting one more online socket extends the fan-out by exactly one visit of that socket |
| ChatServer.VisitShape | chat-app/server/server.js:89-109 | one visit only appends, only events for the visited socket, never for the sender, and the alert comes first when the test passes |
| ChatServer.FanOutAlerts | chat-app/server/server.js:88-116 | the `forEach` loop emits and stores exactly what the fan-out function gives |
| ChatServer.FiledAppend | chat-app/server/server.js:130-135 | filing an unread message without `readAt` under its own pair's key keeps every conversation well formed |
| ChatServer.FiledMark | chat-app/server/server.js:202-206 | marking a stored message read with its time keeps every conversation well formed |
| ChatServer.RegisteredAfterJoin | chat-app/server/server.js:34-43 | registering a user under its own socket keeps the users, the join order and the connections consistent |
| ChatServer.RegisteredAfterLeave | chat-app/server/server.js:330-334 | dropping a socket from the users and the connections keeps them consistent |
| ChatServer.FirstWithId | chat-app/server/server.js:202 | `find` by id is None exactly when no message has the id; otherwise it gives the first such message |
| ChatServer.Server.constructor | chat-app/server/server.js:23-26 | all maps start empty |
| ChatServer.Server.Recipients | chat-app/server/server.js:85 | an emit reaches only connected sockets, and a broadcast never reaches the socket it excludes |
| ChatServer.Server.Connect | chat-app/server/server.js:29 | a new socket starts in its own room; nothing else changes |
| ChatServer.Server.UserJoin | chat-app/server/server.js:33-73 | registers the user (so it appears in the roster), joins 'general', replaces the user's ledger by `[]`, and emits user_joined to the others, then the unstored welcome, then connection_success with the roster and the rooms |
| ChatServer.Server.SendMessage | chat-app/server/server.js:76-117 | relays the message to its room, then emits and stores exactly what the fan-out function gives over the online users in join order, testing the sender's rooms |
| ChatServer.Server.SendPrivateMessage | chat-app/server/server.js:120-194 | appends one unread message to the pair's conversation only; when the recipient is online, delivers it with the alert, stores a record without `from`, emits the true count and acks 'delivered'; otherwise stores the full alert and acks 'pending' |
| ChatServer.Server.MessageRead | chat-app/server/server.js:197-235 | with no such conversation or id, emits and changes nothing; otherwise marks the first message with that id read with `readAt = now` (overwriting any earlier one), clears the reader's matching records, emits the true count, and sends a receipt when the sender is online |
| ChatServer.Server.MarkNotificationRead | chat-app/server/server.js:238-254 | with no registered user, does nothing; otherwise marks exactly the records with that id and emits the true count |
| ChatServer.Server.MarkAllNotificationsRead | chat-app/server/server.js:257-270 | with no registered user, does nothing; otherwise leaves every record read and emits the count 0, which is then the true count |
| ChatServer.Server.JoinRoom | chat-app/server/server.js:273-296 | leaves the previous room only if one is given, joins the new room without checking it, and emits user_joined_room to the room (sender excluded) and an unstored room_join notification |
| ChatServer.Server.UserStatusChange | chat-app/server/server.js:299-311 | with a registered user, sets their status and tells the others; otherwise does nothing |
| ChatServer.Server.Typing | chat-app/server/server.js:314-326 | relays the typing flag to the room, never to the typing socket |
| ChatServer.Server.Disconnect | chat-app/server/server.js:329-350 | afterwards the socket is in no room and has no user, and the roster excludes it; a registered user's departure is broadcast with the remaining roster; a second disconnect emits nothing and changes nothing |
| SocketConnection.Pow2 | chat-app/client/src/hooks/useSocketConnection.js:17 | `Math.pow(2, n)` is at least 1 |
| SocketConnection.BackoffBase | chat-app/client/src/hooks/useSocketConnection.js:12-17 | the back-off lies between 1000 and 30000 |
| SocketConnection.ReconnectDelay | chat-app/client/src/hooks/useSocketConnection.js:16-19 | the delay lies in [base, base + 1000), and so never exceeds 31000 |
| SocketConnection.Pow2Monotone | chat-app/client/src/hooks/useSocketConnection.js:17 | powers of two grow with the exponent |
| SocketConnection.BackoffMonotone | chat-app/client/src/hooks/useSocketConnection.js:17 | a later attempt never waits less |
| SocketConnection.BackoffSchedule | chat-app/client/src/hooks/useSocketConnection.js:17 | 1, 2, 4, 8 and 16 seconds, then the 30-second cap from the fifth attempt on |
| SocketConnection.ReconnectController.constructor | chat-app/client/src/hooks/useSocketConnection.js:5-9 | no socket, disconnected, no attempts, no disconnect time, no timer |
| SocketConnection.ReconnectController.Connect | chat-app/client/src/hooks/useSocketConnection.js:22-26 | creates no socket and returns None once 5 attempts are used up; otherwise creates a socket and puts it in state |
| SocketConnection.ReconnectController.Mount | chat-app/client/src/hooks/useSocketConnection.js:110-117 | the mount effect connects once, creating one socket unless the attempts are used up, and changes nothing else |
| SocketConnection.ReconnectController.HandleConnect | chat-app/client/src/hooks/useSocketConnection.js:36-41 | connected, no attempts, no disconnect time |
| SocketConnection.ReconnectController.AttemptReconnect | chat-app/client/src/hooks/useSocketConnection.js:70-84 | the pending timer is replaced by one for the current attempt's delay, so at most one is pending |
| SocketConnection.ReconnectController.HandleDisconnect | chat-app/client/src/hooks/useSocketConnection.js:43-53 | disconnected at `now`; a disconnect by the server schedules nothing, any other reason schedules a retry |
| SocketConnection.ReconnectController.HandleConnectError | chat-app/client/src/hooks/useSocketConnection.js:55-59 | disconnected, and a retry is scheduled |
| SocketConnection.ReconnectController.FireTimer | chat-app/client/src/hooks/useSocketConnection.js:78-83 | below 5 attempts, the count rises by one and a socket is created, since `connect()` still sees the count from before the increment (so there are five retry sockets); at 5 nothing happens |
| SocketConnection.ReconnectController.Disconnect | chat-app/client/src/hooks/useSocketConnection.js:87-99 | drops the socket (disconnected if there was one) and cancels the timer |
| SocketConnection.ReconnectController.Reconnect | chat-app/client/src/hooks/useSocketConnection.js:102-107 | as written: drops the socket and the timer and resets the count to 0; `connect()` sees the count from before the reset, so a socket is created below 5 attempts and none (and no socket is left in state) at 5 |
| SocketConnection.ReconnectController.ReconnectFresh | chat-app/client/src/hooks/useSocketConnection.js:102-107 | as intended: drops the socket and the timer, resets the count to 0, and always creates a socket |
| SocketConnection.ReconnectAfterRetriesRunOut | chat-app/client/src/hooks/useSocketConnection.js:102-107 | after a failed first connection and five failed retries, the first "Reconnect Now" creates no socket and the second one creates socket 6 |
| SocketContext.WithNewest | chat-app/client/src/context/SocketContext.jsx:37-42 | the new record is at index 0, the old ones shift by one, and the list is cut at 100 |
| SocketContext.KeepLast | chat-app/client/src/context/SocketContext.jsx:72 | `slice(-100)` keeps the last min(n, 100) elements |
| SocketContext.AppendKeepsNewest | chat-app/client/src/context/SocketContext.jsx:71-72 | the appended message stays last, and only the oldest messages are dropped |
| SocketContext.Bump | chat-app/client/src/context/SocketContext.jsx:78-81 | the sender's count rises by one from 0 or its old value; every other count is unchanged |
| SocketContext.TitleShowsCount | chat-app/client/src/context/SocketContext.jsx:64 | "(n) ChatApp" for n > 0, with n read back between the parentheses; "ChatApp" otherwise |
| SocketContext.UseSocket | chat-app/client/src/context/SocketContext.jsx:6-12 | gives the context value inside a provider and the error "useSocket must be used within a SocketProvider" outside one |
| SocketContext.ClientState.constructor | chat-app/client/src/context/SocketContext.jsx:24-29 | the initial state |
| SocketContext.ClientState.AddNotification | chat-app/client/src/context/SocketContext.jsx:37-42 | the list becomes the new record followed by the old ones, cut at 100; the cap is kept |
| SocketContext.ClientState.HandleUserJoined | chat-app/client/src/context/SocketContext.jsx:45-47 | the roster becomes the server's list |
| SocketContext.ClientState.HandleUserLeft | chat-app/client/src/context/SocketContext.jsx:49-51 | the roster becomes the server's list |
| SocketContext.ClientState.HandleConnectionSuccess | chat-app/client/src/context/SocketContext.jsx:53-56 | the signed-in user and the roster become the server's |
| SocketContext.ClientState.HandleUnreadCountUpdate | chat-app/client/src/context/SocketContext.jsx:62-65 | the total becomes exactly the server's count, and the title follows it |
| SocketContext.ClientState.HandleNewPrivateMessage | chat-app/client/src/context/SocketContext.jsx:67-83 | appends to the pair's conversation, keeping the last 100, with the others untouched; the sender's unread count rises by one only when the message is to the signed-in user |
| MessagePagination.Insert | chat-app/client/src/hooks/useMessagePagination.js:76-78 | inserting into a sorted list keeps it sorted and adds exactly that message |
| MessagePagination.SortedSnoc | chat-app/client/src/hooks/useMessagePagination.js:76-78 | appending a message no earlier than all the others keeps the list sorted |
| MessagePagination.SortByTime | chat-app/client/src/hooks/useMessagePagination.js:76-78 | the sort yields non-decreasing timestamps and a permutation of its input |
| MessagePagination.AllMessages | chat-app/client/src/hooks/useMessagePagination.js:76-78 | the merged list is sorted by time and is a permutation of the messages followed by the file messages |
| MessagePagination.Pager.constructor | chat-app/client/src/hooks/useMessagePagination.js:4-8 | empty lists, more to load, not loading, page 1 |
| MessagePagination.Pager.LoadInitial | chat-app/client/src/hooks/useMessagePagination.js:12-26 | without a socket nothing changes; otherwise the batch replaces the list, and `hasMore` says whether it is a full page of 50 |
| MessagePagination.Pager.LoadMore | chat-app/client/src/hooks/useMessagePagination.js:29-32 | a load starts only when none is running and more remain; otherwise nothing changes |
| MessagePagination.Pager.CompleteLoadMore | chat-app/client/src/hooks/useMessagePagination.js:34-44 | the batch goes before the existing messages, and the page rises by 1; a short batch ends `hasMore` |
| MessagePagination.Pager.OnNewMessage | chat-app/client/src/hooks/useMessagePagination.js:51-53 | a live message is appended at the end |
| MessagePagination.Pager.OnNewFileMessage | chat-app/client/src/hooks/useMessagePagination.js:55-57 | a file message is appended to the file messages |
| MessagePagination.Pager.ResetForRoomChange | chat-app/client/src/hooks/useMessagePagination.js:69-74 | empty lists, page 1, more to load |
| MessagePagination.Pager.RoomChanged | chat-app/client/src/hooks/useMessagePagination.js:12-74 | both effects run, initial load first, so the list ends empty with page 1 and more to load |
| ThrottledCallback.Decide | chat-app/client/src/hooks/useThrottledCallback.js:9-22 | run now exactly when at least `delay` has passed; otherwise wait a strictly positive time that ends `delay` after the last run |
| ThrottledCallback.Throttle.constructor | chat-app/client/src/hooks/useThrottledCallback.js:4-5 | no run yet (`lastExecuted` 0) and nothing pending |
| ThrottledCallback.Throttle.Call | chat-app/client/src/hooks/useThrottledCallback.js:7-24 | runs at once and records `now`, or replaces the pending run by one with the remaining wait |
| ThrottledCallback.Throttle.Fire | chat-app/client/src/hooks/useThrottledCallback.js:11-14 | the scheduled run records the time of the call that scheduled it, not the time it fires |
| Sequences.Filter | chat-app/client/src/components/NotificationsPanel.jsx:8-12 | `filter` returns no more elements than it is given, each of them passing the test |
| Sequences.FilterCounts | chat-app/client/src/components/NotificationsPanel.jsx:8-12 | `filter` keeps each element exactly as often as it occurs, if it satisfies the test, and drops it otherwise |
| Sequences.FilterAppend | chat-app/client/src/components/NotificationsPanel.jsx:8-12 | filtering a concatenation filters each part, so order is kept |
| Sequences.FilterKeepsAll | chat-app/client/src/components/NotificationsPanel.jsx:9 | a test every element passes returns the list unchanged |
| Sequences.FilterMembers | chat-app/client/src/components/MessageSearch.jsx:13-17 | an element is kept exactly when it occurs and passes the test |
| NotificationsPanel.FilterNotifications | chat-app/client/src/components/NotificationsPanel.jsx:8-12 | every entry shown passes the tab's test, and entries are shown as often as in the input when they pass and never otherwise |
| NotificationsPanel.AllTabIsIdentity | chat-app/client/src/components/NotificationsPanel.jsx:9 | the 'all' tab returns the whole list unchanged |
| NotificationsPanel.UnreadTabIsUnread | chat-app/client/src/components/NotificationsPanel.jsx:10 | the 'unread' tab shows exactly the unread entries, as many as the unread count |
| NotificationsPanel.UnreadFilterCount | chat-app/client/src/components/NotificationsPanel.jsx:10 | the 'unread' tab is as long as the unread count |
| NotificationsPanel.FilterKeepsOrder | chat-app/client/src/components/NotificationsPanel.jsx:8-12 | each tab keeps the entries in their original order |
| NotificationsPanel.Icon | chat-app/client/src/components/NotificationsPanel.jsx:14-31 | the bell exactly for a type without a glyph of its own |
| NotificationsPanel.IconsDistinct | chat-app/client/src/components/NotificationsPanel.jsx:14-31 | different known types get different glyphs |
| NotificationsPanel.Color | chat-app/client/src/components/NotificationsPanel.jsx:33-44 | the gray classes exactly for a type without colours of its own |
| NotificationsPanel.MinuteLabel | chat-app/client/src/components/NotificationsPanel.jsx:49-52 | between a minute and an hour, the label is the digits of the whole minutes, in 1..59 and read back exactly, then "m ago" |
| NotificationsPanel.HourLabel | chat-app/client/src/components/NotificationsPanel.jsx:49-53 | between an hour and a day, the label is the digits of the whole hours, in 1..23 and read back exactly, then "h ago" |
| NotificationsPanel.FormatTimeBuckets | chat-app/client/src/components/NotificationsPanel.jsx:46-55 | "Just now" exactly under a minute (the future included); "{m}m ago" with 1 <= m < 60; "{h}h ago" with 1 <= h < 24; the date exactly from a day on; the number reads back as the floor of the elapsed minutes or hours |
| NotificationsPanel.ClickRequest | chat-app/client/src/components/NotificationsPanel.jsx:134 | a click asks to mark read, with that entry's id, exactly when it is unread |
| MessageSearch.SearchResults | chat-app/client/src/components/MessageSearch.jsx:9-19 | a blank term finds nothing; otherwise a prefix of all matches of length min(matches, 10); each result is a user message whose lower-cased text contains the lower-cased term |
| MessageSearch.SearchResultsArePrefix | chat-app/client/src/components/MessageSearch.jsx:13-18 | the results are exactly the first min(matches, 10) matches in input order: all of them when there are at most 10, exactly ten otherwise |
| MessageSearch.BlankTermFindsNothing | chat-app/client/src/components/MessageSearch.jsx:10 | a term of whitespace only finds nothing |
| MessageSearch.SearchIsComplete | chat-app/client/src/components/MessageSearch.jsx:12-18 | with at most 10 matches, every matching message is found |
| MessageSearch.CursorStaysInRange | chat-app/client/src/components/MessageSearch.jsx:24-31 | each arrow moves by one unless that would leave the results; ArrowDown never passes len-1, ArrowUp never goes below 0, and with no results ArrowDown leaves the index |
| MessageSearch.SearchBox.constructor | chat-app/client/src/components/MessageSearch.jsx:4-5 | empty term, index 0 |
| MessageSearch.SearchBox.OnChange | chat-app/client/src/components/MessageSearch.jsx:72-75 | editing the term resets the index to 0 |
| MessageSearch.SearchBox.KeyDown | chat-app/client/src/components/MessageSearch.jsx:21-41 | Escape closes; the arrows move the cursor; Enter with results selects the result under the cursor and closes |
| NotificationBell.Recent | chat-app/client/src/components/NotificationBell.jsx:21 | at most the first 3 notifications, in order |
| NotificationBell.Preview | chat-app/client/src/components/NotificationBell.jsx:23-28 | "Message from {from}" for a direct message; otherwise the message if present and non-empty, else the title |
| NotificationBell.Badge | chat-app/client/src/components/NotificationBell.jsx:44-46 | a badge exactly when the count is positive, and "9+" exactly above 9 |
| NotificationBell.BadgeShowsSmallCounts | chat-app/client/src/components/NotificationBell.jsx:46 | from 1 to 9, the badge is the count's single digit |
| PrivateChat.RequestedExactly | chat-app/client/src/components/PrivateChat.jsx:18-22 | a read is requested for exactly the messages to the signed-in user that are unread |
| PrivateChat.RequestsAreForMe | chat-app/client/src/components/PrivateChat.jsx:19 | every read request is for a message addressed to the signed-in user |
| PrivateChat.ReadRequests | chat-app/client/src/components/PrivateChat.jsx:18-22 | the loop issues the requests the selection function gives, in conversation order |
| PrivateChat.ReadMarkedNeverRequested | chat-app/client/src/components/PrivateChat.jsx:18-22 | the messages that show "✓ Read" at line 79 (the user's own messages, once read) never cause a read request: leaving them out of the conversation leaves the requests unchanged |
| PrivateChat.PrivateChatView.constructor | chat-app/client/src/components/PrivateChat.jsx:10 | empty input and conversation |
| PrivateChat.PrivateChatView.SetMessage | chat-app/client/src/components/PrivateChat.jsx:29-40 | the input holds the typed text |
| PrivateChat.PrivateChatView.Refresh | chat-app/client/src/components/PrivateChat.jsx:10-23 | shows the conversation under the pair's key (empty if absent) and requests its reads |
| PrivateChat.PrivateChatView.HandleSend | chat-app/client/src/components/PrivateChat.jsx:29-40 | nothing is sent for a blank input or without a socket; otherwise the trimmed text is sent and the input cleared |
| MessageReactions.UniqExactly | chat-app/client/src/components/MessageReactions.jsx:31 | the buttons show each present reaction once, and no other |
| MessageReactions.UniqSnoc | chat-app/client/src/components/MessageReactions.jsx:22-25 | a new reaction joins the key order at the end; a repeated one leaves it alone |
| MessageReactions.CountSnoc | chat-app/client/src/components/MessageReactions.jsx:23 | one more use of a reaction adds one to its number of occurrences and to no other |
| MessageReactions.TotalFrame | chat-app/client/src/components/MessageReactions.jsx:22-25 | setting the count of an unlisted reaction leaves the listed total alone |
| MessageReactions.TotalBump | chat-app/client/src/components/MessageReactions.jsx:23 | one more use of a listed reaction adds one to the total |
| MessageReactions.TallyRepeat | chat-app/client/src/components/MessageReactions.jsx:23 | counting a reaction already seen keeps the tally exact |
| MessageReactions.TallyFirst | chat-app/client/src/components/MessageReactions.jsx:23 | counting a new reaction adds a key with count 1 and keeps the tally exact |
| MessageReactions.Tally | chat-app/client/src/components/MessageReactions.jsx:22-31 | each reaction's count is the number of users who chose it; only present reactions are keys, in first-occurrence order; the counts add up to the number of users (so empty input gives an empty tally) |
| MessageReactions.ReactionPicker.constructor | chat-app/client/src/components/MessageReactions.jsx:6 | the picker starts closed |
| MessageReactions.ReactionPicker.Toggle | chat-app/client/src/components/MessageReactions.jsx:43 | "+" flips the picker |
| MessageReactions.ReactionPicker.HandleReaction | chat-app/client/src/components/MessageReactions.jsx:10-20 | nothing is sent without a socket or a signed-in user; otherwise one reaction event is sent under the user's name and the picker closes |
| ConnectionStatus.ElapsedLabelReadsBack | chat-app/client/src/components/ConnectionStatus.jsx:9-16 | below 60 seconds "{s}s ago", and the number reads back as the floor of the elapsed seconds; from 60 seconds "{m}m ago" with the floor of the elapsed minutes |
| ConnectionStatus.SecondsLabel | chat-app/client/src/components/ConnectionStatus.jsx:10-12 | under a minute, the label is the decimal digits of the whole elapsed seconds, which read back as that number, then "s ago" |
| ConnectionStatus.MinutesLabel | chat-app/client/src/components/ConnectionStatus.jsx:10-14 | from a minute on, the label is the decimal digits of the whole elapsed minutes, which read back as that number, then "m ago" |
| ConnectionStatus.DisconnectedTextShowsAttempts | chat-app/client/src/components/ConnectionStatus.jsx:41 | the "(n/max)" counter, with the attempt count, "/" and the maximum, follows "Disconnected " exactly when some attempt was made |
| ConnectionStatus.DisconnectLine | chat-app/client/src/components/ConnectionStatus.jsx:53-57 | the "Disconnected ..." line exactly when a disconnect time is known |
| ConnectionStatus.AttemptLine | chat-app/client/src/components/ConnectionStatus.jsx:59-63 | "Reconnect attempt n of max" exactly when some attempt was made |
| ConnectionStatus.StatusPanel.constructor | chat-app/client/src/components/ConnectionStatus.jsx:4-5 | details closed, empty label |
| ConnectionStatus.StatusPanel.UpdateTime | chat-app/client/src/components/ConnectionStatus.jsx:7-16 | the label is recomputed only while a disconnect time is known |
| ConnectionStatus.StatusPanel.ToggleDetails | chat-app/client/src/components/ConnectionStatus.jsx:36 | the button flips the details box |
| ConnectionStatus.StatusPanel.CloseDetails | chat-app/client/src/components/ConnectionStatus.jsx:73 | Close hides the details box |
| ConnectionStatus.StatusPanel.Render | chat-app/client/src/components/ConnectionStatus.jsx:24-63 | only the badge while connected; otherwise the button with the counter text, and, when open, one line per condition that holds: "Disconnected {time}" first when a disconnect time is known, "Reconnect attempt n of max" last when an attempt was made |

## Left out

- Transport: the Express and socket.io setup, CORS, the environment file, the health route and `listen`. Creating the client socket with `io(...)` is left out too. They are I/O; sockets appear only as ids, and emits as `Emit` records.
- Clock and randomness: `Date.now()`, `new Date()` and `Math.random()` become parameters. One `now` stands for every clock reading within a handler. Message ids are an integer parameter, where the source uses `Date.now() + Math.random()`. The jitter is a real in [0, 1000).
- Dates are millisecond integers; their string and locale forms (`toLocaleDateString`, `toLocaleTimeString`) are left out. `NotificationsPanel.FormatTime` returns `LocaleDate(timestamp)` for that case.
- Every socket.io room, including a socket's own room, is a name in `socketRooms`. `Recipients` says which sockets an emit reaches. Delivery itself is not modelled.
- `ChatServer.Server.SendMessage`: the fan-out tests the sending socket's rooms, as server.js:89 does. A client always sends to the room it is in, so in practice the fan-out never fires; the lemmas state both cases.
- Aliasing of user objects: `disconnect` sets `status = 'offline'` on the user object just before deleting it, and nothing outside the handler can see that, so the model just deletes. `user_status_change` updates the user in place, which the model writes as a map update.
- `ChatTypes.ConversationKey`: the string order is modelled on characters. JavaScript's default sort compares UTF-16 code units, which differs only for characters beyond the Basic Multilingual Plane.
- `Text.Take`: `substring(0, 50)` counts UTF-16 code units; the model counts characters.
- `Text.ToLower`: lower-cases ASCII letters only; full Unicode case mapping is left out.
- The search highlighting (`highlightSearchTerm`, a RegExp built from the term) is presentation and is left out.
- React semantics: each state setter is modelled as an immediate field update, and every callback reads the current value of a field. In the source, the socket handlers created at mount capture `reconnectAttempts` as it was then, 0 (useSocketConnection.js:67, 84). So the program as written always computes the first delay, in [1000, 2000) ms; its `reconnectAttempts < 5` test always passes, so retries never stop at five; and the "(n/5)" counter can go past 5. The model instead reads the count of the last render. Within one callback it still sees the count from before a `setReconnectAttempts` made earlier in that callback, as the source does. This gives the intended growing back-off and five retries, each creating a socket, after which the count stays at 5 and a timer creates nothing. Render cycles and effect scheduling are not modelled.
- `SocketConnection.ReconnectController.Disconnect`: the synchronous 'disconnect' event that socket.io-client raises on a manual `socket.disconnect()` is library behaviour and is not modelled.
- `MessagePagination.Pager`: the demo generator `generateSampleMessages` is random sample data. The batches it returns are parameters. It returns as many messages as asked for: 20 on the initial load and 50 on each further load.
- `MessagePagination.SortByTime`: proved sorted and a permutation; that the sort is stable (equal timestamps keep their order) is not proved.
- `MessageReactions.Tally`: `Object.values` is given as a sequence. Its order for keys that look like array indices, which JavaScript puts first in ascending order, is not modelled.
- The `markMessageAsRead` and `markNotificationAsRead` callbacks come from a context that never provides them. The model records which calls are made (`PrivateChat.ReadCall`, `NotificationsPanel.ClickRequest`), not their effect.
- `ConnectionStatus.StatusPanel.UpdateTime`: the `setInterval` that repeats it every second is left out; each tick is one call.
- UI-only parts are not modelled: scroll and animation, the sound settings, file upload formatting, typing timers in the input box, layout, the login page and the room selector. The `newRoom !== currentRoom` guard in Chat.jsx, the only caller of `join_room`, is not part of this model either.
- Concurrency: Node runs one handler at a time, so the server is a sequential state machine.

## Findings

| source | as written | input that shows it | evidently intended | confidence | as-written member | corrected member |
|---|---|---|---|---|---|---|
| chat-app/client/src/hooks/useSocketConnection.js:102-107 | `reconnect` calls `setReconnectAttempts(0)` and then `connect()`, whose test `reconnectAttempts >= 5` still sees the count from before the reset | the first connection and all five retries fail, then "Reconnect Now" is pressed: no socket is created and none is left in state; only a second press connects | a manual retry connects at once, whatever the count was | not executed | SocketConnection.ReconnectController.Reconnect, SocketConnection.ReconnectAfterRetriesRunOut | SocketConnection.ReconnectController.ReconnectFresh |
