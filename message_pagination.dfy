/** The room message list of the client (useMessagePagination.js): pages of
    older messages loaded in front, live messages appended at the end, a
    reset when the room changes, and the merged list the view shows,
    ordered by timestamp. The batches a load produces are parameters. */
module MessagePagination {
  import opened ChatTypes

  const MessagesPerPage: nat := 50

  predicate SortedByTime(s: seq<ChatMessage>) {
    forall i, j :: 0 <= i < j < |s| ==> s[i].timestamp <= s[j].timestamp
  }

  /** Places `x` after every element of `s` whose timestamp is not later
      than its own. */
  function Insert(s: seq<ChatMessage>, x: ChatMessage): (r: seq<ChatMessage>)
    requires SortedByTime(s)
    ensures SortedByTime(r)
    ensures multiset(r) == multiset(s) + multiset{x}
  {
    if s == [] then [x]
    else if s[|s| - 1].timestamp <= x.timestamp then
      SortedSnoc(s, x);
      s + [x]
    else
      var init := s[..|s| - 1];
      var last := s[|s| - 1];
      assert s == init + [last];
      var r := Insert(init, x);
      NoneLaterThanLast(init, last, x, r);
      SortedSnoc(r, last);
      r + [last]
  }

  /** Appending an element no earlier than all others keeps the order. */
  lemma SortedSnoc(s: seq<ChatMessage>, x: ChatMessage)
    requires SortedByTime(s)
    requires forall i :: 0 <= i < |s| ==> s[i].timestamp <= x.timestamp
    ensures SortedByTime(s + [x])
  {
  }

  lemma NoneLaterThanLast(init: seq<ChatMessage>, last: ChatMessage, x: ChatMessage, r: seq<ChatMessage>)
    requires SortedByTime(init + [last])
    requires x.timestamp < last.timestamp
    requires multiset(r) == multiset(init) + multiset{x}
    ensures forall i :: 0 <= i < |r| ==> r[i].timestamp <= last.timestamp
  {
    var s := init + [last];
    forall i | 0 <= i < |r| ensures r[i].timestamp <= last.timestamp {
      var y := r[i];
      assert y in multiset(r);
      if y != x {
        assert y in multiset(init);
        var k :| 0 <= k < |init| && init[k] == y;
        assert s[k] == y && s[|init|] == last;
      }
    }
  }

  /** `[...a].sort((a, b) => a.timestamp - b.timestamp)`, as an insertion sort. */
  function SortByTime(s: seq<ChatMessage>): (r: seq<ChatMessage>)
    ensures SortedByTime(r)
    ensures multiset(r) == multiset(s)
  {
    if s == [] then []
    else
      assert s == s[..|s| - 1] + [s[|s| - 1]];
      Insert(SortByTime(s[..|s| - 1]), s[|s| - 1])
  }

  /** `allMessages`: the text and file messages together, oldest first. */
  function AllMessages(messages: seq<ChatMessage>, fileMessages: seq<ChatMessage>): (r: seq<ChatMessage>)
    ensures SortedByTime(r)
    ensures multiset(r) == multiset(messages) + multiset(fileMessages)
    ensures |r| == |messages| + |fileMessages|
  {
    var r := SortByTime(messages + fileMessages);
    assert |multiset(r)| == |r|;
    r
  }

  class Pager {
    var messages: seq<ChatMessage>
    var fileMessages: seq<ChatMessage>
    var hasMore: bool
    var isLoading: bool
    var page: nat

    constructor ()
      ensures messages == [] && fileMessages == [] && hasMore && !isLoading && page == 1
    {
      messages := [];
      fileMessages := [];
      hasMore := true;
      isLoading := false;
      page := 1;
    }

    /** The initial-load effect: with a socket, the batch replaces the list. */
    method LoadInitial(hasSocket: bool, batch: seq<ChatMessage>)
      modifies this
      ensures !hasSocket ==> unchanged(this)
      ensures hasSocket ==> messages == batch && hasMore == (|batch| == MessagesPerPage) && !isLoading
      ensures hasSocket ==> fileMessages == old(fileMessages) && page == old(page)
    {
      if !hasSocket {
        return;
      }
      isLoading := true;
      messages := batch;
      hasMore := |batch| == MessagesPerPage;
      isLoading := false;
    }

    /** `loadMoreMessages`: starts a load unless one is running or nothing
        is left; the batch arrives later, in `CompleteLoadMore`. */
    method LoadMore() returns (started: bool)
      modifies this
      ensures started <==> !old(isLoading) && old(hasMore)
      ensures !started ==> unchanged(this)
      ensures started ==> isLoading
      ensures messages == old(messages) && fileMessages == old(fileMessages)
      ensures hasMore == old(hasMore) && page == old(page)
    {
      if isLoading || !hasMore {
        return false;
      }
      isLoading := true;
      started := true;
    }

    /** The load timer's callback: the older batch goes in front. */
    method CompleteLoadMore(batch: seq<ChatMessage>)
      modifies this
      ensures messages == batch + old(messages)
      ensures |batch| < MessagesPerPage ==> !hasMore
      ensures |batch| >= MessagesPerPage ==> hasMore == old(hasMore)
      ensures page == old(page) + 1 && !isLoading
      ensures fileMessages == old(fileMessages)
    {
      if |batch| < MessagesPerPage {
        hasMore := false;
      }
      messages := batch + messages;
      page := page + 1;
      isLoading := false;
    }

    /** 'new_message': appended at the end. */
    method OnNewMessage(m: ChatMessage)
      modifies this
      ensures messages == old(messages) + [m]
      ensures fileMessages == old(fileMessages) && hasMore == old(hasMore)
      ensures isLoading == old(isLoading) && page == old(page)
    {
      messages := messages + [m];
    }

    /** 'new_file_message': appended to the file messages. */
    method OnNewFileMessage(m: ChatMessage)
      modifies this
      ensures fileMessages == old(fileMessages) + [m]
      ensures messages == old(messages) && hasMore == old(hasMore)
      ensures isLoading == old(isLoading) && page == old(page)
    {
      fileMessages := fileMessages + [m];
    }

    /** The reset effect. */
    method ResetForRoomChange()
      modifies this
      ensures messages == [] && fileMessages == [] && page == 1 && hasMore
      ensures isLoading == old(isLoading)
    {
      messages := [];
      fileMessages := [];
      page := 1;
      hasMore := true;
    }

    /** A change of room runs both effects, initial load first, so the
        initial batch is discarded by the reset that follows. */
    method RoomChanged(hasSocket: bool, batch: seq<ChatMessage>)
      modifies this
      ensures messages == [] && fileMessages == [] && page == 1 && hasMore
      ensures hasSocket ==> !isLoading
      ensures !hasSocket ==> isLoading == old(isLoading)
    {
      LoadInitial(hasSocket, batch);
      ResetForRoomChange();
    }
  }
}
