/** The client's shared chat state (SocketContext.jsx): the roster, the
    signed-in user, the cached direct conversations, the per-sender unread
    counts, the notification list and the total unread count, and the
    socket event handlers that update them. */
module SocketContext {
  import opened Text
  import opened ChatTypes

  const MaxNotifications: nat := 100
  const MaxConversation: nat := 100

  /** `[n, ...ns].slice(0, 100)`: the new record first, then the older ones,
      cut at 100. */
  function WithNewest(n: Notification, ns: seq<Notification>): (r: seq<Notification>)
    ensures |r| == Min(|ns| + 1, MaxNotifications)
    ensures r[0] == n
    ensures forall i :: 1 <= i < |r| ==> r[i] == ns[i - 1]
  {
    Take([n] + ns, MaxNotifications)
  }

  /** `s.slice(-k)` for a positive `k`: the last `k` elements, or all of them. */
  function KeepLast<T>(s: seq<T>, k: nat): (r: seq<T>)
    requires k > 0
    ensures |r| == Min(|s|, k)
    ensures r == s[|s| - |r|..]
  {
    if |s| <= k then s else s[|s| - k..]
  }

  /** Appending to a conversation and keeping the last 100 keeps the new
      message as the last one and drops only the oldest ones. */
  lemma AppendKeepsNewest(existing: seq<PrivateMessage>, m: PrivateMessage)
    ensures var r := KeepLast(existing + [m], MaxConversation);
      r[|r| - 1] == m && r[..|r| - 1] == existing[|existing| + 1 - |r|..]
  {
  }

  /** `{ ...prev, [from]: (prev[from] || 0) + 1 }`. */
  function Bump(counts: map<string, int>, from: string): (r: map<string, int>)
    ensures from in r && r[from] == (if from in counts then counts[from] else 0) + 1
    ensures forall s :: s != from ==> (s in r <==> s in counts)
    ensures forall s :: s in counts && s != from ==> r[s] == counts[s]
  {
    counts[from := (if from in counts then counts[from] else 0) + 1]
  }

  /** The document title for an unread count. */
  function Title(count: int): string {
    if count > 0 then "(" + IntToString(count) + ") ChatApp" else "ChatApp"
  }

  /** A positive count can be read back from the title, between its
      parentheses; otherwise the title is the bare application name. */
  lemma TitleShowsCount(count: int)
    ensures count <= 0 ==> Title(count) == "ChatApp"
    ensures count > 0 ==>
      var t := Title(count);
      |t| > 10 && t[0] == '(' && t[|t| - 9..] == ") ChatApp"
      && (forall i :: 1 <= i < |t| - 9 ==> IsDigit(t[i]))
      && DigitsToNat(t[1..|t| - 9]) == count
  {
    if count > 0 {
      var t := Title(count);
      var d := NatToString(count);
      assert t == "(" + d + ") ChatApp";
      assert t[1..|t| - 9] == d;
      NatToStringRoundTrip(count);
    }
  }

  datatype Result<T> = Success(value: T) | Failure(error: string)

  /** `useSocket`: the context value, or the error it throws outside a provider. */
  function UseSocket<T>(context: Option<T>): (r: Result<T>)
    ensures context.Some? <==> r.Success?
    ensures context.Some? ==> r.value == context.value
    ensures context.None? ==> r.error == "useSocket must be used within a SocketProvider"
  {
    match context
    case Some(c) => Success(c)
    case None => Failure("useSocket must be used within a SocketProvider")
  }

  class ClientState {
    var onlineUsers: seq<User>
    var currentUser: Option<User>
    var privateMessages: map<string, seq<PrivateMessage>>
    var unreadCounts: map<string, int>
    var notifications: seq<Notification>
    var totalUnreadCount: int
    var title: string

    /** The caps the handlers maintain. */
    ghost predicate Valid()
      reads this
    {
      |notifications| <= MaxNotifications
      && forall key :: key in privateMessages ==> |privateMessages[key]| <= MaxConversation
    }

    constructor ()
      ensures Valid()
      ensures onlineUsers == [] && currentUser == None && privateMessages == map[]
      ensures unreadCounts == map[] && notifications == [] && totalUnreadCount == 0
      ensures title == "ChatApp"
    {
      onlineUsers := [];
      currentUser := None;
      privateMessages := map[];
      unreadCounts := map[];
      notifications := [];
      totalUnreadCount := 0;
      title := "ChatApp";
    }

    /** `addNotification`, the 'new_notification' handler. */
    method AddNotification(n: Notification)
      requires Valid()
      modifies this
      ensures Valid()
      ensures notifications == WithNewest(n, old(notifications))
      ensures onlineUsers == old(onlineUsers) && currentUser == old(currentUser)
      ensures privateMessages == old(privateMessages) && unreadCounts == old(unreadCounts)
      ensures totalUnreadCount == old(totalUnreadCount) && title == old(title)
    {
      notifications := WithNewest(n, notifications);
    }

    /** 'user_joined': the roster becomes the server's list. */
    method HandleUserJoined(users: seq<User>)
      requires Valid()
      modifies this
      ensures Valid()
      ensures onlineUsers == users
      ensures currentUser == old(currentUser) && privateMessages == old(privateMessages)
      ensures unreadCounts == old(unreadCounts) && notifications == old(notifications)
      ensures totalUnreadCount == old(totalUnreadCount) && title == old(title)
    {
      onlineUsers := users;
    }

    /** 'user_left': likewise. */
    method HandleUserLeft(users: seq<User>)
      requires Valid()
      modifies this
      ensures Valid()
      ensures onlineUsers == users
      ensures currentUser == old(currentUser) && privateMessages == old(privateMessages)
      ensures unreadCounts == old(unreadCounts) && notifications == old(notifications)
      ensures totalUnreadCount == old(totalUnreadCount) && title == old(title)
    {
      onlineUsers := users;
    }

    /** 'connection_success': records the signed-in user and the roster. */
    method HandleConnectionSuccess(user: User, users: seq<User>)
      requires Valid()
      modifies this
      ensures Valid()
      ensures currentUser == Some(user) && onlineUsers == users
      ensures privateMessages == old(privateMessages) && unreadCounts == old(unreadCounts)
      ensures notifications == old(notifications)
      ensures totalUnreadCount == old(totalUnreadCount) && title == old(title)
    {
      currentUser := Some(user);
      onlineUsers := users;
    }

    /** 'unread_count_update': the total becomes the server's count. */
    method HandleUnreadCountUpdate(count: int)
      requires Valid()
      modifies this
      ensures Valid()
      ensures totalUnreadCount == count && title == Title(count)
      ensures onlineUsers == old(onlineUsers) && currentUser == old(currentUser)
      ensures privateMessages == old(privateMessages) && unreadCounts == old(unreadCounts)
      ensures notifications == old(notifications)
    {
      totalUnreadCount := count;
      title := Title(count);
    }

    /** 'new_private_message': caches the message under the pair's key and,
        when it is addressed to the signed-in user, counts it as unread
        from its sender. */
    method HandleNewPrivateMessage(m: PrivateMessage)
      requires Valid()
      modifies this
      ensures Valid()
      ensures var key := ConversationKey(m.from, m.to);
        privateMessages == old(privateMessages)[key :=
          KeepLast((if key in old(privateMessages) then old(privateMessages)[key] else []) + [m], MaxConversation)]
      ensures currentUser.Some? && m.to == currentUser.value.username ==>
        unreadCounts == Bump(old(unreadCounts), m.from)
      ensures !(currentUser.Some? && m.to == currentUser.value.username) ==> unreadCounts == old(unreadCounts)
      ensures onlineUsers == old(onlineUsers) && currentUser == old(currentUser)
      ensures notifications == old(notifications)
      ensures totalUnreadCount == old(totalUnreadCount) && title == old(title)
    {
      var conversationId := ConversationKey(m.from, m.to);
      var existing := if conversationId in privateMessages then privateMessages[conversationId] else [];
      privateMessages := privateMessages[conversationId := KeepLast(existing + [m], MaxConversation)];
      if currentUser.Some? && m.to == currentUser.value.username {
        unreadCounts := Bump(unreadCounts, m.from);
      }
    }
  }
}
