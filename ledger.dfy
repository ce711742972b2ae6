/** The server's notification ledger (`userNotifications`): username to the
    list of notification records kept for that user. Every write in
    server.js copies the list with `map(...)`, setting `read: true` on the
    records a callback selects, and stores the copy back; which records are
    selected is a `Selector` here. */
module Ledger {
  import opened ChatTypes

  type Ledger = map<string, seq<Notification>>

  /** `userNotifications.get(name) || []`. */
  function LedgerOf(ledger: Ledger, name: string): (ns: seq<Notification>)
    ensures name in ledger ==> ns == ledger[name]
    ensures name !in ledger ==> ns == []
  {
    if name in ledger then ledger[name] else []
  }

  /** The three `map` callbacks of server.js that set `read: true`. */
  datatype Selector =
    | ById(id: int)              // mark_notification_read: `notification.id === data.notificationId`
    | Every                      // mark_all_notifications_read: every record
    | PrivateFrom(from: string)  // message_read: `type === 'private_message' && from === data.from`

  predicate Selects(sel: Selector, n: Notification) {
    match sel
    case ById(id) => n.id == id
    case Every => true
    case PrivateFrom(f) => n.kind == "private_message" && n.from == Some(f)
  }

  /** `ns.map(n => selected ? { ...n, read: true } : n)`. */
  function MarkRead(ns: seq<Notification>, sel: Selector): (r: seq<Notification>)
    ensures |r| == |ns|
    ensures forall i :: 0 <= i < |ns| ==>
      r[i] == if Selects(sel, ns[i]) then ns[i].(read := true) else ns[i]
  {
    if ns == [] then []
    else
      var last := ns[|ns| - 1];
      MarkRead(ns[..|ns| - 1], sel) + [if Selects(sel, last) then last.(read := true) else last]
  }

  /** Marking twice leaves the same list as marking once. */
  lemma MarkReadIdempotent(ns: seq<Notification>, sel: Selector)
    ensures MarkRead(MarkRead(ns, sel), sel) == MarkRead(ns, sel)
  {
    var once := MarkRead(ns, sel);
    var twice := MarkRead(once, sel);
    forall i | 0 <= i < |ns| ensures twice[i] == once[i] {
      assert Selects(sel, ns[i]) <==> Selects(sel, ns[i].(read := true));
    }
  }

  /** After marking, the unread records are exactly the unread records the
      selector did not pick: the recount behind every `unread_count_update`. */
  lemma MarkReadUnreadCount(ns: seq<Notification>, sel: Selector)
    ensures CountUnread(MarkRead(ns, sel))
         == |set i | 0 <= i < |ns| && !ns[i].read && !Selects(sel, ns[i])|
  {
    var r := MarkRead(ns, sel);
    CountUnreadIndices(r);
    var after := set i | 0 <= i < |r| && !r[i].read;
    var kept := set i | 0 <= i < |ns| && !ns[i].read && !Selects(sel, ns[i]);
    forall i | i in after ensures i in kept {
      assert !r[i].read;
    }
    forall i | i in kept ensures i in after {
      assert r[i] == ns[i];
    }
    assert after == kept;
  }

  /** Marking never makes the unread count grow. */
  lemma {:induction false} MarkReadNeverRaisesCount(ns: seq<Notification>, sel: Selector)
    ensures CountUnread(MarkRead(ns, sel)) <= CountUnread(ns)
  {
    if ns != [] {
      var init := ns[..|ns| - 1];
      MarkReadNeverRaisesCount(init, sel);
      var r := MarkRead(ns, sel);
      assert r[..|r| - 1] == MarkRead(init, sel);
    }
  }

  /** After `mark_all_notifications_read` nothing is unread, so the constant
      0 the handler sends is the true count. */
  lemma MarkEveryLeavesNoneUnread(ns: seq<Notification>)
    ensures CountUnread(MarkRead(ns, Every)) == 0
  {
    CountUnreadZero(MarkRead(ns, Every));
  }

  /** The read-receipt callback never picks a record without a `from` field. */
  lemma PrivateFromNeedsSender(ns: seq<Notification>, f: string, i: int)
    requires 0 <= i < |ns| && ns[i].from.None?
    ensures MarkRead(ns, PrivateFrom(f))[i] == ns[i]
  {
  }
}
