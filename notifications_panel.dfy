/** The notification panel of the client (NotificationsPanel.jsx): the
    filter tabs, the icon and colour of each notification type, the relative
    time shown beside each entry, and the click that asks for mark-read. */
module NotificationsPanel {
  import opened Text
  import opened ChatTypes
  import opened Sequences

  /** The filter the panel keeps for a tab: 'all', 'unread', or a type name. */
  predicate Keeps(activeFilter: string, n: Notification) {
    if activeFilter == "all" then true
    else if activeFilter == "unread" then !n.read
    else n.kind == activeFilter
  }

  /** `filteredNotifications`. */
  function FilterNotifications(ns: seq<Notification>, activeFilter: string): (r: seq<Notification>)
    ensures forall i :: 0 <= i < |r| ==> Keeps(activeFilter, r[i])
    ensures forall n :: multiset(r)[n] == if Keeps(activeFilter, n) then multiset(ns)[n] else 0
  {
    FilterCounts(ns, n => Keeps(activeFilter, n));
    Filter(ns, n => Keeps(activeFilter, n))
  }

  /** The 'all' tab shows the list unchanged. */
  lemma AllTabIsIdentity(ns: seq<Notification>)
    ensures FilterNotifications(ns, "all") == ns
  {
    FilterKeepsAll(ns, n => Keeps("all", n));
  }

  /** The 'unread' tab shows exactly the unread entries, once each time they
      occur, and as many as the unread count. */
  lemma UnreadTabIsUnread(ns: seq<Notification>)
    ensures forall n :: n in FilterNotifications(ns, "unread") <==> n in ns && !n.read
    ensures |FilterNotifications(ns, "unread")| == CountUnread(ns)
  {
    var p := (n: Notification) => Keeps("unread", n);
    forall n ensures n in Filter(ns, p) <==> n in ns && !n.read {
      FilterMembers(ns, p, n);
    }
    UnreadFilterCount(ns);
  }

  lemma {:induction false} UnreadFilterCount(ns: seq<Notification>)
    ensures |FilterNotifications(ns, "unread")| == CountUnread(ns)
  {
    if ns != [] {
      var init := ns[..|ns| - 1];
      var last := ns[|ns| - 1];
      UnreadFilterCount(init);
      assert ns == init + [last];
      FilterAppend(init, [last], n => Keeps("unread", n));
    }
  }

  /** The tabs keep order: filtering two lists one after the other gives
      the two filtered lists one after the other. */
  lemma FilterKeepsOrder(a: seq<Notification>, b: seq<Notification>, activeFilter: string)
    ensures FilterNotifications(a + b, activeFilter)
         == FilterNotifications(a, activeFilter) + FilterNotifications(b, activeFilter)
  {
    FilterAppend(a, b, n => Keeps(activeFilter, n));
  }

  /** The types that have an icon of their own. */
  const IconKinds: set<string> := {"private_message", "room_activity", "room_join", "user_joined", "welcome", "mention"}

  const Bell: string := "\U{1F514}"

  /** `getNotificationIcon`. */
  function Icon(kind: string): (glyph: string)
    ensures kind !in IconKinds <==> glyph == Bell
  {
    if kind == "private_message" then "\U{1F4AC}"
    else if kind == "room_activity" then "\U{1F3E0}"
    else if kind == "room_join" then "\U{1F6AA}"
    else if kind == "user_joined" then "\U{1F44B}"
    else if kind == "welcome" then "\U{1F389}"
    else if kind == "mention" then "\U{1F4E2}"
    else Bell
  }

  /** Different known types get different icons. */
  lemma IconsDistinct(a: string, b: string)
    requires a in IconKinds && b in IconKinds && a != b
    ensures Icon(a) != Icon(b)
  {
  }

  const ColorKinds: set<string> := {"private_message", "room_activity", "mention"}
  const Gray: string := "text-gray-600 bg-gray-50 border-gray-200"

  /** `getNotificationColor`. */
  function Color(kind: string): (classes: string)
    ensures kind !in ColorKinds <==> classes == Gray
  {
    if kind == "private_message" then "text-purple-600 bg-purple-50 border-purple-200"
    else if kind == "room_activity" then "text-blue-600 bg-blue-50 border-blue-200"
    else if kind == "mention" then "text-orange-600 bg-orange-50 border-orange-200"
    else Gray
  }

  /** What `formatTime` shows; the date form is the locale's rendering of
      the timestamp. */
  datatype TimeText = Label(text: string) | LocaleDate(timestamp: int)

  /** `Math.floor((now - timestamp) / 60000)`. */
  function MinutesBetween(now: int, timestamp: int): int {
    (now - timestamp) / 60000
  }

  /** `formatTime`, with the clock reading `now` in milliseconds. */
  function FormatTime(now: int, timestamp: int): TimeText {
    var m := MinutesBetween(now, timestamp);
    if m < 1 then Label("Just now")
    else if m < 60 then Label(IntToString(m) + "m ago")
    else if m < 1440 then Label(IntToString(m / 60) + "h ago")
    else LocaleDate(timestamp)
  }

  /** The buckets: under a minute (including a timestamp in the future) is
      "Just now"; then whole minutes up to 59; then whole hours up to 23,
      each read back from the label; from a day on, the date. */
  lemma FormatTimeBuckets(now: int, timestamp: int)
    ensures var t := FormatTime(now, timestamp);
      var e := now - timestamp;
      (e < 60000 <==> t == Label("Just now"))
      && (60000 <= e < 3600000 ==>
            t.Label? && |t.text| >= 6 && t.text[|t.text| - 5..] == "m ago"
            && (forall i :: 0 <= i < |t.text| - 5 ==> IsDigit(t.text[i]))
            && DigitsToNat(t.text[..|t.text| - 5]) == e / 60000
            && 1 <= DigitsToNat(t.text[..|t.text| - 5]) < 60)
      && (3600000 <= e < 86400000 ==>
            t.Label? && |t.text| >= 6 && t.text[|t.text| - 5..] == "h ago"
            && (forall i :: 0 <= i < |t.text| - 5 ==> IsDigit(t.text[i]))
            && DigitsToNat(t.text[..|t.text| - 5]) == e / 3600000
            && 1 <= DigitsToNat(t.text[..|t.text| - 5]) < 24)
      && (e >= 86400000 <==> t == LocaleDate(timestamp))
  {
    var e := now - timestamp;
    BucketEdges(e);
    if 60000 <= e < 3600000 {
      MinuteLabel(e);
    } else if 3600000 <= e < 86400000 {
      HourLabel(e);
    }
  }

  lemma BucketEdges(e: int)
    ensures e / 60000 < 1 <==> e < 60000
    ensures e / 60000 < 60 <==> e < 3600000
    ensures e / 60000 < 1440 <==> e < 86400000
  {
  }

  /** Between a minute and an hour the label is the whole minutes, then "m ago". */
  lemma MinuteLabel(e: int)
    requires 60000 <= e < 3600000
    ensures 1 <= e / 60000 < 60
    ensures var t := IntToString(e / 60000) + "m ago";
      |t| >= 6 && t[|t| - 5..] == "m ago" && (forall i :: 0 <= i < |t| - 5 ==> IsDigit(t[i]))
      && DigitsToNat(t[..|t| - 5]) == e / 60000
  {
    SuffixReadsBack(e / 60000, "m ago");
  }

  /** Between an hour and a day the label is the whole hours, then "h ago". */
  lemma HourLabel(e: int)
    requires 3600000 <= e < 86400000
    ensures e / 60000 / 60 == e / 3600000 && 1 <= e / 3600000 < 24
    ensures var t := IntToString(e / 3600000) + "h ago";
      |t| >= 6 && t[|t| - 5..] == "h ago" && (forall i :: 0 <= i < |t| - 5 ==> IsDigit(t[i]))
      && DigitsToNat(t[..|t| - 5]) == e / 3600000
  {
    SuffixReadsBack(e / 3600000, "h ago");
  }

  /** A click asks to mark the entry read only while it is unread. */
  function ClickRequest(n: Notification): (r: Option<int>)
    ensures r.Some? <==> !n.read
    ensures r.Some? ==> r.value == n.id
  {
    if !n.read then Some(n.id) else None
  }
}
