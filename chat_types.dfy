/** The records the server and the client exchange, and the two rules both
    sides share: the canonical conversation key of a pair of users and the
    unread count of a notification list. */
module ChatTypes {
  import opened Text

  datatype Option<T> = None | Some(value: T)

  /** Socket ids are the strings socket.io assigns to connections. */
  type SocketId = string

  /** An online user as the server records it on `user_join`. */
  datatype User = User(id: SocketId, username: string, avatar: string, joinedAt: int, status: string)

  /** A notification record. Optional fields are the ones some producers leave
      out of the object they build (`message`, `room`, `from`). */
  datatype Notification = Notification(
    id: int,
    kind: string,
    title: string,
    message: Option<string>,
    timestamp: int,
    room: Option<string>,
    from: Option<string>,
    read: bool)

  /** A direct message. `readAt` stays absent until a read receipt arrives. */
  datatype PrivateMessage = PrivateMessage(
    id: int,
    from: string,
    to: string,
    message: string,
    timestamp: int,
    read: bool,
    readAt: Option<int>)

  /** A room message as the client lists and searches it. */
  datatype ChatMessage = ChatMessage(
    id: int,
    kind: string,
    user: string,
    avatar: string,
    message: string,
    timestamp: int,
    room: string)

  /** `[a, b].sort().join('_')`: the two usernames in string order, joined by
      an underscore. Used by the server (server.js) and the client
      (SocketContext.jsx, PrivateChat.jsx) alike. */
  function ConversationKey(a: string, b: string): string {
    if StrLess(b, a) then b + "_" + a else a + "_" + b
  }

  /** The key does not depend on which user is the sender. */
  lemma ConversationKeySymmetric(a: string, b: string)
    ensures ConversationKey(a, b) == ConversationKey(b, a)
  {
    if a != b {
      StrLessTotal(a, b);
      if StrLess(a, b) { StrLessAsymmetric(a, b); } else { StrLessAsymmetric(b, a); }
    }
  }

  /** The key is one of the two joins, and the name written first is the one
      that does not come later in string order. */
  lemma ConversationKeyOrdered(a: string, b: string)
    ensures (ConversationKey(a, b) == a + "_" + b && !StrLess(b, a))
         || (ConversationKey(a, b) == b + "_" + a && !StrLess(a, b))
  {
    if StrLess(b, a) { StrLessAsymmetric(b, a); }
  }

  /** The join is not injective: names containing an underscore can make two
      different pairs share one conversation. */
  lemma ConversationKeyCollision()
    ensures ConversationKey("a_b", "c") == ConversationKey("a", "b_c")
    ensures ["a_b", "c"] != ["a", "b_c"]
  {
    assert StrLess("a_b", "c");
    assert StrLess("a", "b_c");
  }

  /** `notifications.filter(n => !n.read).length`. */
  function CountUnread(ns: seq<Notification>): (c: nat)
    ensures c <= |ns|
  {
    if ns == [] then 0
    else CountUnread(ns[..|ns| - 1]) + (if ns[|ns| - 1].read then 0 else 1)
  }

  /** Appending one record adds one to the count exactly when it is unread. */
  lemma CountUnreadAppend(ns: seq<Notification>, n: Notification)
    ensures CountUnread(ns + [n]) == CountUnread(ns) + (if n.read then 0 else 1)
  {
    assert (ns + [n])[..|ns|] == ns;
  }

  /** The count is zero exactly when every entry has been read. */
  lemma {:induction false} CountUnreadZero(ns: seq<Notification>)
    ensures CountUnread(ns) == 0 <==> forall i :: 0 <= i < |ns| ==> ns[i].read
  {
    if ns != [] {
      CountUnreadZero(ns[..|ns| - 1]);
      assert forall i :: 0 <= i < |ns| - 1 ==> ns[..|ns| - 1][i] == ns[i];
    }
  }

  /** The count is the number of positions holding an unread entry, seen as
      the size of a set of indices: the recount the ledger must agree with. */
  lemma {:induction false} CountUnreadIndices(ns: seq<Notification>)
    ensures CountUnread(ns) == |set i | 0 <= i < |ns| && !ns[i].read|
  {
    if ns != [] {
      var init := ns[..|ns| - 1];
      CountUnreadIndices(init);
      var before := set i | 0 <= i < |init| && !init[i].read;
      var all := set i | 0 <= i < |ns| && !ns[i].read;
      if ns[|ns| - 1].read {
        assert all == before;
      } else {
        assert all == before + {|ns| - 1};
      }
    }
  }
}
