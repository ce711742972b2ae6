/** The direct-message window of the client (PrivateChat.jsx): the
    conversation it shows, the read requests it issues for messages
    addressed to the signed-in user, and the send guard. The
    `markMessageAsRead` callback it calls is represented by the list of
    calls made. */
module PrivateChat {
  import opened Text
  import opened ChatTypes
  import opened Sequences

  /** The arguments of one `markMessageAsRead(id, from, to)` call. */
  datatype ReadCall = ReadCall(id: int, from: string, to: string)

  /** The 'send_private_message' payload. */
  datatype Outgoing = Outgoing(from: string, to: string, message: string)

  /** A message the signed-in user `me` has received and not yet read. */
  predicate AwaitsRead(m: PrivateMessage, me: string) {
    m.to == me && !m.read
  }

  /** The calls the effect's `forEach` makes, in order. */
  function Requested(ms: seq<PrivateMessage>, me: string): seq<ReadCall> {
    if ms == [] then []
    else
      var m := ms[|ms| - 1];
      Requested(ms[..|ms| - 1], me) + (if AwaitsRead(m, me) then [ReadCall(m.id, m.from, m.to)] else [])
  }

  /** A read is requested for exactly the messages awaiting a read. */
  lemma {:induction false} RequestedExactly(ms: seq<PrivateMessage>, me: string)
    ensures forall c :: c in Requested(ms, me) <==>
      exists j :: 0 <= j < |ms| && AwaitsRead(ms[j], me) && c == ReadCall(ms[j].id, ms[j].from, ms[j].to)
  {
    if ms != [] {
      var init := ms[..|ms| - 1];
      RequestedExactly(init, me);
      forall j | 0 <= j < |init| ensures init[j] == ms[j] { }
      forall c | c in Requested(ms, me)
        ensures exists j :: 0 <= j < |ms| && AwaitsRead(ms[j], me) && c == ReadCall(ms[j].id, ms[j].from, ms[j].to)
      {
        if c in Requested(init, me) {
          var j :| 0 <= j < |init| && AwaitsRead(init[j], me) && c == ReadCall(init[j].id, init[j].from, init[j].to);
          assert ms[j] == init[j];
        } else {
          assert AwaitsRead(ms[|ms| - 1], me);
        }
      }
    }
  }

  /** Every call is for a message to `me`: the sender of a message never
      asks for its own message to be marked. */
  lemma RequestsAreForMe(ms: seq<PrivateMessage>, me: string, c: ReadCall)
    requires c in Requested(ms, me)
    ensures c.to == me
  {
    RequestedExactly(ms, me);
  }

  /** The read-marking loop of the effect. */
  method ReadRequests(ms: seq<PrivateMessage>, me: string) returns (calls: seq<ReadCall>)
    ensures calls == Requested(ms, me)
  {
    calls := [];
    var i := 0;
    while i < |ms|
      invariant 0 <= i <= |ms|
      invariant calls == Requested(ms[..i], me)
    {
      var msg := ms[i];
      if msg.to == me && !msg.read {
        calls := calls + [ReadCall(msg.id, msg.from, msg.to)];
      }
      assert ms[..i + 1][..i] == ms[..i];
      i := i + 1;
    }
    assert ms[..i] == ms;
  }

  /** "✓ Read" is shown on a message exactly when `me` sent it and it has
      been read; a message still awaiting `me`'s read never shows it. */
  predicate ShowsReadMark(m: PrivateMessage, me: string) {
    m.read && m.from == me
  }

  /** Messages showing "✓ Read" play no part in the read requests: leaving
      them out of the conversation leaves the requests as they are. */
  lemma {:induction false} ReadMarkedNeverRequested(ms: seq<PrivateMessage>, me: string)
    ensures Requested(Filter(ms, m => !ShowsReadMark(m, me)), me) == Requested(ms, me)
  {
    if ms != [] {
      var init := ms[..|ms| - 1];
      var last := ms[|ms| - 1];
      ReadMarkedNeverRequested(init, me);
      var kept := Filter(init, m => !ShowsReadMark(m, me));
      if !ShowsReadMark(last, me) {
        assert (kept + [last])[..|kept|] == kept;
      } else {
        assert Filter(ms, m => !ShowsReadMark(m, me)) == kept;
        assert Requested(ms, me) == Requested(init, me);
      }
    }
  }

  class PrivateChatView {
    var message: string
    var conversation: seq<PrivateMessage>

    constructor ()
      ensures message == "" && conversation == []
    {
      message := "";
      conversation := [];
    }

    /** The input's onChange. */
    method SetMessage(text: string)
      modifies this
      ensures message == text && conversation == old(conversation)
    {
      message := text;
    }

    /** The effect: loads the conversation with `recipient` from the cache
        and requests reads for what `me` has not read yet. */
    method Refresh(privateMessages: map<string, seq<PrivateMessage>>, me: string, recipient: string)
      returns (calls: seq<ReadCall>)
      modifies this
      ensures var key := ConversationKey(me, recipient);
        conversation == (if key in privateMessages then privateMessages[key] else [])
      ensures calls == Requested(conversation, me)
      ensures message == old(message)
    {
      var conversationId := ConversationKey(me, recipient);
      var messages := if conversationId in privateMessages then privateMessages[conversationId] else [];
      conversation := messages;
      calls := ReadRequests(messages, me);
    }

    /** `handleSendMessage`: nothing for a blank input or without a socket;
        otherwise the trimmed text is sent and the input cleared. */
    method HandleSend(hasSocket: bool, me: string, recipient: string) returns (sent: Option<Outgoing>)
      modifies this
      ensures Trim(old(message)) == [] || !hasSocket ==> sent == None && message == old(message)
      ensures Trim(old(message)) != [] && hasSocket ==>
        sent == Some(Outgoing(me, recipient, Trim(old(message)))) && message == ""
      ensures conversation == old(conversation)
    {
      if Trim(message) == [] || !hasSocket {
        return None;
      }
      sent := Some(Outgoing(me, recipient, Trim(message)));
      message := "";
    }
  }
}
