/** The notification bell of the client (NotificationBell.jsx): the unread
    badge and the dropdown of the latest notifications. */
module NotificationBell {
  import opened Text
  import opened ChatTypes

  /** `notifications.slice(0, 3)`: the first three, in order. */
  function Recent(ns: seq<Notification>): (r: seq<Notification>)
    ensures |r| == Min(3, |ns|)
    ensures forall i :: 0 <= i < |r| ==> r[i] == ns[i]
  {
    Take(ns, 3)
  }

  /** `${value}` of an optional string field: an absent one renders as "undefined". */
  function Rendered(o: Option<string>): string {
    match o
    case Some(s) => s
    case None => "undefined"
  }

  /** `getNotificationPreview`: the sender of a direct message; otherwise
      the message, unless it is absent or empty, and else the title. */
  function Preview(n: Notification): (text: string)
    ensures n.kind == "private_message" ==> text == "Message from " + Rendered(n.from)
    ensures n.kind != "private_message" && n.message.Some? && n.message.value != "" ==> text == n.message.value
    ensures n.kind != "private_message" && (n.message.None? || n.message.value == "") ==> text == n.title
  {
    if n.kind == "private_message" then "Message from " + Rendered(n.from)
    else if n.message.Some? && n.message.value != "" then n.message.value
    else n.title
  }

  /** The badge over the bell, if one is shown. */
  function Badge(totalUnreadCount: int): (b: Option<string>)
    ensures b.Some? <==> totalUnreadCount > 0
    ensures b == Some("9+") <==> totalUnreadCount > 9
  {
    if totalUnreadCount <= 0 then None
    else if totalUnreadCount > 9 then Some("9+")
    else Some(NatToString(totalUnreadCount))
  }

  /** Up to nine, the badge is the single digit of the count. */
  lemma BadgeShowsSmallCounts(totalUnreadCount: int)
    requires 0 < totalUnreadCount <= 9
    ensures var b := Badge(totalUnreadCount).value;
      |b| == 1 && IsDigit(b[0]) && DigitValue(b[0]) == totalUnreadCount
  {
    DigitRoundTrip(totalUnreadCount);
  }
}
