/** The connection indicator of the client (ConnectionStatus.jsx): the
    "Connected" badge, the "Disconnected (n/max)" button, and the details
    box with the time since the last disconnect and the reconnect attempt.
    The clock reading is a parameter, in milliseconds. */
module ConnectionStatus {
  import opened Text
  import opened ChatTypes

  /** `updateTime`'s text: whole seconds under a minute, whole minutes after. */
  function ElapsedLabel(now: int, lastDisconnect: int): string {
    var seconds := (now - lastDisconnect) / 1000;
    if seconds < 60 then IntToString(seconds) + "s ago"
    else IntToString(seconds / 60) + "m ago"
  }

  /** The label reads back as the elapsed seconds (under a minute) or the
      elapsed minutes (from a minute on). */
  lemma ElapsedLabelReadsBack(now: int, lastDisconnect: int)
    requires now >= lastDisconnect
    ensures var t := ElapsedLabel(now, lastDisconnect);
      var e := now - lastDisconnect;
      |t| >= 6
      && (forall i :: 0 <= i < |t| - 5 ==> IsDigit(t[i]))
      && (e < 60000 ==> t[|t| - 5..] == "s ago" && DigitsToNat(t[..|t| - 5]) == e / 1000 < 60)
      && (e >= 60000 ==> t[|t| - 5..] == "m ago" && DigitsToNat(t[..|t| - 5]) == e / 60000 >= 1)
  {
    var e := now - lastDisconnect;
    if e < 60000 {
      SecondsLabel(e);
    } else {
      MinutesLabel(e);
    }
  }

  /** Under a minute the label is the whole seconds, then "s ago". */
  lemma SecondsLabel(e: int)
    requires 0 <= e < 60000
    ensures e / 1000 < 60
    ensures var t := IntToString(e / 1000) + "s ago";
      |t| >= 6 && (forall i :: 0 <= i < |t| - 5 ==> IsDigit(t[i]))
      && t[|t| - 5..] == "s ago" && DigitsToNat(t[..|t| - 5]) == e / 1000
  {
    SuffixReadsBack(e / 1000, "s ago");
  }

  /** From a minute on the label is the whole minutes, then "m ago". */
  lemma MinutesLabel(e: int)
    requires e >= 60000
    ensures e / 1000 >= 60 && e / 1000 / 60 == e / 60000 >= 1
    ensures var t := IntToString(e / 60000) + "m ago";
      |t| >= 6 && (forall i :: 0 <= i < |t| - 5 ==> IsDigit(t[i]))
      && t[|t| - 5..] == "m ago" && DigitsToNat(t[..|t| - 5]) == e / 60000
  {
    SuffixReadsBack(e / 60000, "m ago");
  }

  /** The button's text while disconnected; the counter appears only once a
      reconnect has been attempted. */
  function DisconnectedText(reconnectAttempts: int, maxAttempts: int): string {
    "Disconnected " + if reconnectAttempts > 0 then "(" + IntToString(reconnectAttempts) + "/" + IntToString(maxAttempts) + ")" else ""
  }

  lemma DisconnectedTextShowsAttempts(reconnectAttempts: int, maxAttempts: int)
    ensures var t := DisconnectedText(reconnectAttempts, maxAttempts);
      t[..13] == "Disconnected "
      && (reconnectAttempts <= 0 <==> |t| == 13)
      && (reconnectAttempts > 0 ==>
            t[13] == '(' && t[|t| - 1] == ')'
            && t[14..14 + |NatToString(reconnectAttempts)|] == NatToString(reconnectAttempts)
            && t[14 + |NatToString(reconnectAttempts)|] == '/'
            && t[15 + |NatToString(reconnectAttempts)|..|t| - 1] == IntToString(maxAttempts))
  {
    var head := "Disconnected ";
    if reconnectAttempts > 0 {
      Bracketed(head, NatToString(reconnectAttempts), IntToString(maxAttempts));
    } else {
      assert DisconnectedText(reconnectAttempts, maxAttempts) == head + "";
    }
  }

  /** Where the parts of `head(a/b)` sit. */
  lemma Bracketed(head: string, a: string, b: string)
    ensures var t := head + ("(" + a + "/" + b + ")");
      t[..|head|] == head && |t| == |head| + |a| + |b| + 3
      && t[|head|] == '(' && t[|t| - 1] == ')'
      && t[|head| + 1..|head| + 1 + |a|] == a
      && t[|head| + 1 + |a|] == '/' && t[|head| + 2 + |a|..|t| - 1] == b
  {
    var t := head + ("(" + a + "/" + b + ")");
    assert t[|head| + 1..|head| + 1 + |a|] == a by {
      forall k | 0 <= k < |a| ensures t[|head| + 1 + k] == a[k] { }
    }
    assert t[|head| + 2 + |a|..|t| - 1] == b by {
      forall k | 0 <= k < |b| ensures t[|head| + 2 + |a| + k] == b[k] { }
    }
  }

  /** The details box's first line, present only after a disconnect. */
  function DisconnectLine(lastDisconnect: Option<int>, timeSinceDisconnect: string): (r: Option<string>)
    ensures r.Some? <==> lastDisconnect.Some?
    ensures r.Some? ==> r.value == "Disconnected " + timeSinceDisconnect
  {
    if lastDisconnect.Some? then Some("Disconnected " + timeSinceDisconnect) else None
  }

  /** The details box's attempt line, present only once an attempt was made. */
  function AttemptLine(reconnectAttempts: int, maxAttempts: int): (r: Option<string>)
    ensures r.Some? <==> reconnectAttempts > 0
    ensures r.Some? ==> r.value == "Reconnect attempt " + IntToString(reconnectAttempts) + " of " + IntToString(maxAttempts)
  {
    if reconnectAttempts > 0 then
      Some("Reconnect attempt " + IntToString(reconnectAttempts) + " of " + IntToString(maxAttempts))
    else None
  }

  /** What the component renders. */
  datatype View =
    | ConnectedBadge
    | Offline(button: string, details: Option<seq<string>>)

  class StatusPanel {
    var showDetails: bool
    var timeSinceDisconnect: string

    constructor ()
      ensures !showDetails && timeSinceDisconnect == ""
    {
      showDetails := false;
      timeSinceDisconnect := "";
    }

    /** The effect's `updateTime`, run at once and then every second while
        a disconnect time is known. */
    method UpdateTime(now: int, lastDisconnect: Option<int>)
      modifies this
      ensures lastDisconnect.None? ==> timeSinceDisconnect == old(timeSinceDisconnect)
      ensures lastDisconnect.Some? ==> timeSinceDisconnect == ElapsedLabel(now, lastDisconnect.value)
      ensures showDetails == old(showDetails)
    {
      if lastDisconnect.Some? {
        timeSinceDisconnect := ElapsedLabel(now, lastDisconnect.value);
      }
    }

    method ToggleDetails()
      modifies this
      ensures showDetails == !old(showDetails) && timeSinceDisconnect == old(timeSinceDisconnect)
    {
      showDetails := !showDetails;
    }

    method CloseDetails()
      modifies this
      ensures !showDetails && timeSinceDisconnect == old(timeSinceDisconnect)
    {
      showDetails := false;
    }

    /** The rendering: the badge while connected; otherwise the button, and
        the details box when open, holding the lines that apply in order. */
    function Render(isConnected: bool, reconnectAttempts: int, lastDisconnect: Option<int>, maxAttempts: int): (v: View)
      reads this
      ensures isConnected <==> v == ConnectedBadge
      ensures !isConnected ==> v.button == DisconnectedText(reconnectAttempts, maxAttempts)
      ensures !isConnected ==> (v.details.Some? <==> showDetails)
      ensures !isConnected && showDetails ==>
        |v.details.value| == (if lastDisconnect.Some? then 1 else 0) + (if reconnectAttempts > 0 then 1 else 0)
      ensures !isConnected && showDetails && lastDisconnect.Some? ==>
        v.details.value[0] == "Disconnected " + timeSinceDisconnect
      ensures !isConnected && showDetails && reconnectAttempts > 0 ==>
        v.details.value[|v.details.value| - 1]
          == "Reconnect attempt " + IntToString(reconnectAttempts) + " of " + IntToString(maxAttempts)
    {
      if isConnected then ConnectedBadge
      else
        var first := DisconnectLine(lastDisconnect, timeSinceDisconnect);
        var second := AttemptLine(reconnectAttempts, maxAttempts);
        var lines := (if first.Some? then [first.value] else []) + (if second.Some? then [second.value] else []);
        Offline(DisconnectedText(reconnectAttempts, maxAttempts), if showDetails then Some(lines) else None)
    }
  }
}
