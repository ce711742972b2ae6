/** The client's connection hook (useSocketConnection.js): a socket that is
    created on demand, reconnects with exponential back-off after losing the
    connection, and gives up after five attempts. */
module SocketConnection {
  import opened Text
  import opened ChatTypes

  const MaxReconnectAttempts: nat := 5
  const BaseReconnectDelay: nat := 1000
  const MaxBaseDelay: nat := 30000

  /** `Math.pow(2, n)`. */
  function Pow2(n: nat): (p: nat)
    ensures p >= 1
  {
    if n == 0 then 1 else 2 * Pow2(n - 1)
  }

  /** `Math.min(BASE_RECONNECT_DELAY * Math.pow(2, attempt), 30000)`. */
  function BackoffBase(attempt: nat): (d: nat)
    ensures BaseReconnectDelay <= d <= MaxBaseDelay
  {
    Min(BaseReconnectDelay * Pow2(attempt), MaxBaseDelay)
  }

  /** `getReconnectDelay`: the back-off for `attempt` plus a random jitter,
      which is `Math.random() * 1000` and so lies in [0, 1000). */
  function ReconnectDelay(attempt: nat, jitter: real): (d: real)
    requires 0.0 <= jitter < 1000.0
    ensures BackoffBase(attempt) as real <= d < BackoffBase(attempt) as real + 1000.0
    ensures 1000.0 <= d < 31000.0
  {
    BackoffBase(attempt) as real + jitter
  }

  lemma {:induction false} Pow2Monotone(m: nat, n: nat)
    requires m <= n
    ensures Pow2(m) <= Pow2(n)
    decreases n
  {
    if m < n { Pow2Monotone(m, n - 1); }
  }

  /** A later attempt never waits less than an earlier one. */
  lemma BackoffMonotone(m: nat, n: nat)
    requires m <= n
    ensures BackoffBase(m) <= BackoffBase(n)
  {
    Pow2Monotone(m, n);
  }

  /** The delays double from one second and reach the 30-second cap at the
      fifth attempt; from there on they stay at the cap. */
  lemma BackoffSchedule(n: nat)
    ensures BackoffBase(0) == 1000 && BackoffBase(1) == 2000 && BackoffBase(2) == 4000
    ensures BackoffBase(3) == 8000 && BackoffBase(4) == 16000
    ensures n >= 5 ==> BackoffBase(n) == 30000
  {
    assert Pow2(5) == 32;
    if n >= 5 { Pow2Monotone(5, n); }
  }

  /** The hook's state. A callback reads the state of the last render, so
      a setter it calls is not yet seen by a later call in the same
      callback: where the source calls `setReconnectAttempts` and then
      `connect()`, the model runs `Connect` first and then updates the
      count. Each callback otherwise reads the current value of
      `reconnectAttempts`. The socket instances `io(...)` creates are
      numbered in creation order; `socket` is the one in state. A scheduled
      reconnect timer is represented by its delay. */
  class ReconnectController {
    var socket: Option<nat>
    var created: nat
    var isConnected: bool
    var reconnectAttempts: nat
    var lastDisconnect: Option<int>
    var pendingDelay: Option<real>

    ghost predicate Valid()
      reads this
    {
      reconnectAttempts <= MaxReconnectAttempts
      && (socket.Some? ==> socket.value < created)
      && (pendingDelay.Some? ==> 1000.0 <= pendingDelay.value < 31000.0)
    }

    /** The state before the mount effect runs. */
    constructor ()
      ensures Valid()
      ensures socket == None && created == 0 && !isConnected && reconnectAttempts == 0
      ensures lastDisconnect == None && pendingDelay == None
    {
      socket := None;
      created := 0;
      isConnected := false;
      reconnectAttempts := 0;
      lastDisconnect := None;
      pendingDelay := None;
    }

    /** `connect`: creates a socket, unless the attempts are used up. */
    method Connect() returns (s: Option<nat>)
      requires Valid()
      modifies this
      ensures Valid()
      ensures old(reconnectAttempts) >= MaxReconnectAttempts ==> s == None && unchanged(this)
      ensures old(reconnectAttempts) < MaxReconnectAttempts ==>
        s == Some(old(created)) && socket == s && created == old(created) + 1
      ensures isConnected == old(isConnected) && reconnectAttempts == old(reconnectAttempts)
      ensures lastDisconnect == old(lastDisconnect) && pendingDelay == old(pendingDelay)
    {
      if reconnectAttempts >= MaxReconnectAttempts {
        return None;
      }
      s := Some(created);
      created := created + 1;
      socket := s;
    }

    /** The mount effect. */
    method Mount() returns (s: Option<nat>)
      requires Valid()
      modifies this
      ensures Valid()
      ensures old(reconnectAttempts) < MaxReconnectAttempts ==>
        s == Some(old(created)) && socket == s && created == old(created) + 1
      ensures old(reconnectAttempts) >= MaxReconnectAttempts ==> s == None && unchanged(this)
      ensures isConnected == old(isConnected) && reconnectAttempts == old(reconnectAttempts)
      ensures lastDisconnect == old(lastDisconnect) && pendingDelay == old(pendingDelay)
    {
      s := Connect();
    }

    /** The socket's 'connect' handler. */
    method HandleConnect()
      requires Valid()
      modifies this
      ensures Valid()
      ensures isConnected && reconnectAttempts == 0 && lastDisconnect == None
      ensures socket == old(socket) && created == old(created) && pendingDelay == old(pendingDelay)
    {
      isConnected := true;
      reconnectAttempts := 0;
      lastDisconnect := None;
    }

    /** `attemptReconnect`: replaces any pending timer by one for the
        current attempt's delay, so at most one timer is ever pending. */
    method AttemptReconnect(jitter: real)
      requires Valid() && 0.0 <= jitter < 1000.0
      modifies this
      ensures Valid()
      ensures pendingDelay == Some(ReconnectDelay(reconnectAttempts, jitter))
      ensures socket == old(socket) && created == old(created) && isConnected == old(isConnected)
      ensures reconnectAttempts == old(reconnectAttempts) && lastDisconnect == old(lastDisconnect)
    {
      pendingDelay := Some(ReconnectDelay(reconnectAttempts, jitter));
    }

    /** The socket's 'disconnect' handler: a disconnect the server asked for
        is final, any other schedules a reconnect. */
    method HandleDisconnect(reason: string, now: int, jitter: real)
      requires Valid() && 0.0 <= jitter < 1000.0
      modifies this
      ensures Valid()
      ensures !isConnected && lastDisconnect == Some(now)
      ensures reason == "io server disconnect" ==> pendingDelay == old(pendingDelay)
      ensures reason != "io server disconnect" ==> pendingDelay == Some(ReconnectDelay(reconnectAttempts, jitter))
      ensures socket == old(socket) && created == old(created) && reconnectAttempts == old(reconnectAttempts)
    {
      isConnected := false;
      lastDisconnect := Some(now);
      if reason != "io server disconnect" {
        AttemptReconnect(jitter);
      }
    }

    /** The socket's 'connect_error' handler: always schedules a reconnect. */
    method HandleConnectError(jitter: real)
      requires Valid() && 0.0 <= jitter < 1000.0
      modifies this
      ensures Valid()
      ensures !isConnected
      ensures pendingDelay == Some(ReconnectDelay(reconnectAttempts, jitter))
      ensures socket == old(socket) && created == old(created)
      ensures reconnectAttempts == old(reconnectAttempts) && lastDisconnect == old(lastDisconnect)
    {
      isConnected := false;
      AttemptReconnect(jitter);
    }

    /** The pending timer fires: one more attempt, if any are left. The
        `connect()` after `setReconnectAttempts(prev => prev + 1)` still
        sees the count from before, so each of the five retries creates a
        socket. */
    method FireTimer() returns (s: Option<nat>)
      requires Valid() && pendingDelay.Some?
      modifies this
      ensures Valid()
      ensures pendingDelay == None
      ensures old(reconnectAttempts) < MaxReconnectAttempts ==>
        reconnectAttempts == old(reconnectAttempts) + 1
        && s == Some(old(created)) && socket == s && created == old(created) + 1
      ensures old(reconnectAttempts) >= MaxReconnectAttempts ==>
        reconnectAttempts == old(reconnectAttempts) && s == None && socket == old(socket) && created == old(created)
      ensures isConnected == old(isConnected) && lastDisconnect == old(lastDisconnect)
    {
      pendingDelay := None;
      s := None;
      if reconnectAttempts < MaxReconnectAttempts {
        s := Connect();
        reconnectAttempts := reconnectAttempts + 1;
      }
    }

    /** `disconnect`: drops the socket, if any, and cancels a pending timer. */
    method Disconnect()
      requires Valid()
      modifies this
      ensures Valid()
      ensures socket == None && pendingDelay == None
      ensures old(socket).Some? ==> !isConnected
      ensures old(socket).None? ==> isConnected == old(isConnected)
      ensures created == old(created) && reconnectAttempts == old(reconnectAttempts)
      ensures lastDisconnect == old(lastDisconnect)
    {
      if socket.Some? {
        socket := None;
        isConnected := false;
      }
      pendingDelay := None;
    }

    /** `reconnect` as written: the count is reset, but the `connect()`
        after `setReconnectAttempts(0)` still sees the count from before,
        so once the five retries are used up the first manual retry
        creates no socket and leaves none in state. */
    method Reconnect() returns (s: Option<nat>)
      requires Valid()
      modifies this
      ensures Valid()
      ensures old(reconnectAttempts) < MaxReconnectAttempts ==>
        s == Some(old(created)) && socket == s && created == old(created) + 1
      ensures old(reconnectAttempts) >= MaxReconnectAttempts ==>
        s == None && socket == None && created == old(created)
      ensures reconnectAttempts == 0 && pendingDelay == None
      ensures old(socket).Some? ==> !isConnected
      ensures lastDisconnect == old(lastDisconnect)
    {
      Disconnect();
      s := Connect();
      reconnectAttempts := 0;
    }

    /** `reconnect` as intended: a manual retry starts the count afresh, so
        it always creates a socket. */
    method ReconnectFresh() returns (s: Option<nat>)
      requires Valid()
      modifies this
      ensures Valid()
      ensures s == Some(old(created)) && socket == s && created == old(created) + 1
      ensures reconnectAttempts == 0 && pendingDelay == None
      ensures old(socket).Some? ==> !isConnected
      ensures lastDisconnect == old(lastDisconnect)
    {
      Disconnect();
      reconnectAttempts := 0;
      s := Connect();
    }
  }

  /** The hook mounts and its first connection fails, and so do all five
      retries; then "Reconnect Now" is pressed twice. The first press only
      resets the count and creates no socket; the second one connects. */
  method ReconnectAfterRetriesRunOut() returns (first: Option<nat>, second: Option<nat>)
    ensures first == None
    ensures second == Some(6)
  {
    var c := new ReconnectController();
    var s := c.Mount();
    c.HandleConnectError(0.0);
    s := c.FireTimer();
    c.HandleConnectError(0.0);
    s := c.FireTimer();
    c.HandleConnectError(0.0);
    s := c.FireTimer();
    c.HandleConnectError(0.0);
    s := c.FireTimer();
    c.HandleConnectError(0.0);
    s := c.FireTimer();
    assert c.reconnectAttempts == MaxReconnectAttempts && c.created == 6;
    first := c.Reconnect();
    second := c.Reconnect();
  }
}
