/** The connection manager of connection.js: one GameConnection owns the PeerJS
    peer, the current data connection, the identity fields of both players and
    the reconnection state machine. Transport events and timer firings are
    methods that the environment calls; every callback the code invokes is
    appended to `events` and every envelope it sends to `sent`. */
module Connection {
  import opened Wire

  function Min(a: int, b: int): int {
    if a <= b then a else b
  }

  function Pow2(k: nat): (r: nat)
    ensures r >= 1
  {
    if k == 0 then 1 else 2 * Pow2(k - 1)
  }

  lemma {:induction false} Pow2Monotone(i: nat, j: nat)
    requires i <= j
    ensures Pow2(i) <= Pow2(j)
  {
    if i < j {
      Pow2Monotone(i, j - 1);
    }
  }

  /** The wait in milliseconds before reconnection attempt `attempt`:
      1000 * 2^(attempt - 1), capped at ten seconds. */
  function BackoffDelay(attempt: nat): (delay: nat)
    requires attempt >= 1
    ensures 1000 <= delay <= 10000
    ensures attempt == 1 ==> delay == 1000
  {
    Min(1000 * Pow2(attempt - 1), 10000)
  }

  /** A later attempt never waits less than an earlier one. */
  lemma BackoffDelayMonotone(a: nat, b: nat)
    requires 1 <= a <= b
    ensures BackoffDelay(a) <= BackoffDelay(b)
  {
    Pow2Monotone(a - 1, b - 1);
  }

  /** Each attempt waits twice as long as the one before, until the cap. */
  lemma BackoffDelayDoubles(a: nat)
    requires a >= 1
    ensures BackoffDelay(a + 1) == Min(2 * BackoffDelay(a), 10000)
  {
  }

  /** From the fifth attempt on the wait is the cap itself. */
  lemma BackoffDelayCapped(a: nat)
    requires a >= 5
    ensures BackoffDelay(a) == 10000
  {
    Pow2Monotone(4, a - 1);
  }

  // ---------------------------------------------------------------------------
  // attemptReconnect as a function of the state it touches

  /** The part of the manager's state that attemptReconnect reads and writes:
      the attempt counter, the re-entrancy guard `isReconnecting`, the pending
      backoff timer (its delay) and the callback log. */
  datatype Attempt = Attempt(attempts: nat, reconnecting: bool, backoff: Option<nat>, events: seq<Event>)

  /** One call of attemptReconnect(error) with `max` allowed attempts. */
  function AttemptStep(s: Attempt, max: nat, error: Option<Fault>): (r: Attempt)
    ensures r.attempts == s.attempts || r.attempts == s.attempts + 1
    ensures |s.events| <= |r.events| && r.events[..|s.events|] == s.events
    ensures r.reconnecting ==> r.backoff.Some? || s.reconnecting
  {
    if s.reconnecting then s
    else
      var n := s.attempts + 1;
      var notified := s.events + [Reconnecting(n, max)] + (if error.Some? then [ConnectionError(error.value)] else []);
      if n > max then Attempt(n, false, s.backoff, notified + [ReconnectFailed, ConnectionClosed])
      else Attempt(n, true, Some(BackoffDelay(n)), notified)
  }

  /** A call made while a reconnection is under way changes nothing and
      invokes no callback. */
  lemma AttemptWhileReconnecting(s: Attempt, max: nat, error: Option<Fault>)
    requires s.reconnecting
    ensures AttemptStep(s, max, error) == s
  {
  }

  /** Otherwise the counter goes up by exactly one, onReconnecting is told the
      new count and the maximum, and then either a backoff is scheduled with
      the guard held, or (past the maximum) the guard is released and
      onReconnectFailed and onConnectionClosed fire, in that order, with no
      backoff scheduled. */
  lemma AttemptOutcome(s: Attempt, max: nat, error: Option<Fault>)
    requires !s.reconnecting
    ensures var r := AttemptStep(s, max, error);
      && r.attempts == s.attempts + 1
      && r.events == s.events + [Reconnecting(r.attempts, max)]
                    + (if error.Some? then [ConnectionError(error.value)] else [])
                    + (if r.attempts > max then [ReconnectFailed, ConnectionClosed] else [])
      && (r.attempts <= max ==> r.reconnecting && r.backoff == Some(BackoffDelay(r.attempts)))
      && (r.attempts > max ==> !r.reconnecting && r.backoff == s.backoff)
  {
  }

  /** Nothing scheduled, nothing attempted, nothing reported. */
  const Idle: Attempt := Attempt(0, false, None, [])

  /** What a guest goes through between two attempts when no connection opens:
      the backoff fires and the settle check, finding no open connection,
      releases the guard and calls attemptReconnect again. */
  function RetryAfterFailedSettle(s: Attempt, max: nat): Attempt {
    AttemptStep(s.(reconnecting := false, backoff := None), max, None)
  }

  /** `k` such rounds in a row. */
  function FailedRetries(s: Attempt, max: nat, k: nat): Attempt
    decreases k
  {
    if k == 0 then s else RetryAfterFailedSettle(FailedRetries(s, max, k - 1), max)
  }

  /** onReconnecting(1, max), ..., onReconnecting(k, max). */
  function Announced(k: nat, max: nat): (r: seq<Event>)
    ensures |r| == k
  {
    seq(k, i requires 0 <= i => Reconnecting(i + 1, max))
  }

  /** While the budget lasts, each failed round announces the next attempt
      number and schedules a backoff for it. */
  lemma {:induction false} FailedRetriesWithinBudget(max: nat, k: nat)
    requires 1 <= k <= max
    ensures FailedRetries(AttemptStep(Idle, max, None), max, k - 1)
         == Attempt(k, true, Some(BackoffDelay(k)), Announced(k, max))
  {
    if k > 1 {
      FailedRetriesWithinBudget(max, k - 1);
      assert Announced(k - 1, max) + [Reconnecting(k, max)] == Announced(k, max);
    }
  }

  /** The reconnection budget: starting idle, a guest whose connection never
      comes back makes exactly max + 1 attempts, announcing 1 to max + 1, and
      then reports onReconnectFailed followed by onConnectionClosed, holding no
      guard and leaving no backoff or settle check. (Each rejoin of a failed
      round also leaves a join timeout, which is outside `AttemptStep`.) */
  lemma RetriesExhausted(max: nat)
    ensures FailedRetries(AttemptStep(Idle, max, None), max, max)
         == Attempt(max + 1, false, None, Announced(max + 1, max) + [ReconnectFailed, ConnectionClosed])
  {
    if max == 0 {
      assert Announced(1, 0) == [Reconnecting(1, 0)];
    } else {
      FailedRetriesWithinBudget(max, max);
      assert Announced(max, max) + [Reconnecting(max + 1, max)] == Announced(max + 1, max);
    }
  }

  /** The counter is not frozen once exceeded: a later close event runs
      attemptReconnect again, which announces one more attempt and reports
      the failure a second time. */
  lemma ExhaustedAttemptFailsAgain(max: nat)
    ensures var s := FailedRetries(AttemptStep(Idle, max, None), max, max);
      AttemptStep(s, max, None).events
        == s.events + [Reconnecting(max + 2, max), ReconnectFailed, ConnectionClosed]
  {
    RetriesExhausted(max);
  }

  // ---------------------------------------------------------------------------

  class GameConnection {
    var peer: Option<Peer>
    var connection: Option<Link>
    var isHost: bool
    var roomCode: Text
    var hostName: Text
    var guestName: Text
    var hostGender: Text
    var guestGender: Text
    var hostPlayerType: Text
    /** Whether `pingInterval` holds the handle of a keep-alive interval. */
    var pingInterval: bool
    /** Keep-alive intervals whose handle was overwritten without being
        cleared: nothing can stop them any more. */
    var strayPingIntervals: nat
    var reconnectAttempts: nat
    const maxReconnectAttempts: nat := 3
    var isReconnecting: bool
    var manualDisconnect: bool

    /** Envelopes handed to the data connection, oldest first. */
    var sent: seq<Message>
    /** Application callbacks invoked, oldest first. */
    var events: seq<Event>

    /** The connectToPeer closure joinRoom registered for the peer's 'open'. */
    var dialOnPeerOpen: Option<Dial>
    /** The delay of the pending backoff timer of attemptReconnect. */
    var backoff: Option<nat>
    /** Whether the guest's settle check after a rejoin is pending. */
    var settlePending: bool
    /** How many join timeouts are still pending. */
    var joinTimeouts: nat

    /** The guard `isReconnecting` is held exactly while one of the two
        reconnection timers is pending, and then the budget is not exceeded. */
    ghost predicate Valid()
      reads this
    {
      && (isReconnecting <==> backoff.Some? || settlePending)
      && !(backoff.Some? && settlePending)
      && (isReconnecting ==> reconnectAttempts <= maxReconnectAttempts)
      && (backoff.Some? ==> 1000 <= backoff.value <= 10000)
      && (dialOnPeerOpen.Some? ==> peer.Some? && !peer.value.open)
    }

    function AttemptState(): Attempt
      reads this
    {
      Attempt(reconnectAttempts, isReconnecting, backoff, events)
    }

    /** isConnected: there is a current connection and it is open. */
    function IsConnected(): (b: bool)
      reads this
      ensures b <==> connection.Some? && connection.value.open
    {
      connection.Some? && connection.value.open
    }

    /** Everything closeConnection tears down is torn down. */
    predicate TornDown()
      reads this
    {
      manualDisconnect && !pingInterval && connection.None? && peer.None? && dialOnPeerOpen.None?
    }

    constructor ()
      ensures Valid()
      ensures peer.None? && connection.None? && !isHost && roomCode.None?
      ensures hostName.None? && guestName.None? && hostGender.None? && guestGender.None? && hostPlayerType.None?
      ensures !pingInterval && strayPingIntervals == 0
      ensures reconnectAttempts == 0 && !isReconnecting && !manualDisconnect
      ensures sent == [] && events == []
      ensures dialOnPeerOpen.None? && backoff.None? && !settlePending && joinTimeouts == 0
    {
      peer, connection := None, None;
      isHost, roomCode := false, None;
      hostName, guestName, hostGender, guestGender, hostPlayerType := None, None, None, None, None;
      pingInterval, strayPingIntervals := false, 0;
      reconnectAttempts, isReconnecting, manualDisconnect := 0, false, false;
      sent, events := [], [];
      dialOnPeerOpen, backoff, settlePending, joinTimeouts := None, None, false, 0;
    }

    /** initializePeerWithId: a fresh peer with identity `id`, or a random
        one when `id` is None; it has not opened yet and carries no listener
        from an earlier peer. */
    method InitializePeerWithId(id: Text)
      requires Valid()
      modifies this`peer, this`dialOnPeerOpen
      ensures Valid()
      ensures peer == Some(Peer(id, false, false)) && dialOnPeerOpen.None?
    {
      peer := Some(Peer(id, false, false));
      dialOnPeerOpen := None;
    }

    /** initializePeer: a fresh peer with a random identity. */
    method InitializePeer()
      requires Valid()
      modifies this`peer, this`dialOnPeerOpen
      ensures Valid()
      ensures peer == Some(Peer(None, false, false)) && dialOnPeerOpen.None?
    {
      InitializePeerWithId(None);
    }

    /** Becomes the host of a new room. `draw` is Math.floor(Math.random() * 9000). */
    method CreateRoom(name: Text, gender: Text, playerType: Text, draw: nat) returns (code: string)
      requires Valid()
      requires draw < 9000
      modifies this`isHost, this`hostName, this`hostGender, this`hostPlayerType
      modifies this`manualDisconnect, this`reconnectAttempts, this`roomCode, this`peer, this`dialOnPeerOpen
      ensures Valid()
      ensures IsRoomCode(code) && 1000 <= RoomNumber(code) <= 9999 && code == RoomCode(1000 + draw)
      ensures isHost && hostName == name && hostGender == gender && hostPlayerType == playerType
      ensures !manualDisconnect && reconnectAttempts == 0 && roomCode == Some(code)
      ensures peer == Some(Peer(Some(code), false, false)) && dialOnPeerOpen.None?
    {
      isHost := true;
      hostName := name;
      hostGender := gender;
      hostPlayerType := playerType;
      manualDisconnect := false;
      reconnectAttempts := 0;
      code := RoomCode(1000 + draw);
      roomCode := Some(code);
      // any old peer is destroyed and replaced by one whose identity is the code
      InitializePeerWithId(Some(code));
    }

    /** Becomes the guest of room `room`. An existing peer is destroyed and
        replaced by a fresh one, which cannot be open yet, so the dial waits
        for its 'open' event and a join timeout is scheduled. Without a peer,
        reading `this.peer.open` throws: `threw` is true, and neither the dial
        nor the timeout is set up. */
    method JoinRoom(room: Text, name: Text, gender: Text) returns (threw: bool)
      requires Valid()
      modifies this`isHost, this`roomCode, this`guestName, this`guestGender, this`manualDisconnect
      modifies this`peer, this`dialOnPeerOpen, this`joinTimeouts
      ensures Valid()
      ensures !isHost && roomCode == room && guestName == name && guestGender == gender && !manualDisconnect
      ensures threw <==> old(peer).None?
      ensures threw ==> peer.None? && dialOnPeerOpen.None? && joinTimeouts == old(joinTimeouts)
      ensures !threw ==> && peer == Some(Peer(None, false, false))
                         && dialOnPeerOpen == Some(Dial(room, name, gender))
                         && joinTimeouts == old(joinTimeouts) + 1
    {
      isHost := false;
      roomCode := room;
      guestName := name;
      guestGender := gender;
      manualDisconnect := false;
      if peer.Some? {
        InitializePeer();
      }
      if peer.None? {
        threw := true;
        return;
      }
      threw := false;
      dialOnPeerOpen := Some(Dial(room, name, gender));
      joinTimeouts := joinTimeouts + 1;
    }

    /** setupConnectionListeners: `link` becomes the current connection and a
        new keep-alive interval is started; an interval already running is
        not cleared, only its handle is lost. */
    method SetupConnectionListeners(link: Link)
      modifies this`connection, this`pingInterval, this`strayPingIntervals
      ensures connection == Some(link) && pingInterval
      ensures strayPingIntervals == old(strayPingIntervals) + (if old(pingInterval) then 1 else 0)
    {
      connection := Some(link);
      if pingInterval {
        strayPingIntervals := strayPingIntervals + 1;
      }
      pingInterval := true;
    }

    /** The peer's 'open' event: a dial joinRoom left waiting now connects. */
    method OnPeerOpen()
      requires Valid()
      requires peer.Some? && !peer.value.open && !peer.value.destroyed
      modifies this`peer, this`dialOnPeerOpen, this`connection, this`pingInterval, this`strayPingIntervals
      ensures Valid()
      ensures peer == Some(old(peer.value).(open := true)) && dialOnPeerOpen.None?
      ensures old(dialOnPeerOpen).None? ==>
        connection == old(connection) && pingInterval == old(pingInterval) && strayPingIntervals == old(strayPingIntervals)
      ensures old(dialOnPeerOpen).Some? ==>
        && connection == Some(Link(Dialed(old(dialOnPeerOpen.value)), false)) && pingInterval
        && strayPingIntervals == old(strayPingIntervals) + (if old(pingInterval) then 1 else 0)
    {
      peer := Some(peer.value.(open := true));
      if dialOnPeerOpen.Some? {
        var dial := dialOnPeerOpen.value;
        dialOnPeerOpen := None;
        SetupConnectionListeners(Link(Dialed(dial), false));
      }
    }

    /** handleIncomingConnection: the guest's connection replaces whatever
        connection there was. */
    method OnIncomingConnection()
      requires Valid()
      requires peer.Some? && peer.value.open && !peer.value.destroyed
      modifies this`connection, this`pingInterval, this`strayPingIntervals
      ensures Valid()
      ensures connection == Some(Link(Incoming, false)) && pingInterval
      ensures strayPingIntervals == old(strayPingIntervals) + (if old(pingInterval) then 1 else 0)
    {
      SetupConnectionListeners(Link(Incoming, false));
    }

    /** The current connection's 'open' event: each side announces itself and
        reports the new connection; the guest's announcement carries what
        joinRoom captured. */
    method OnConnectionOpen()
      requires Valid()
      requires connection.Some? && !connection.value.open
      modifies this`connection, this`sent, this`events
      ensures Valid()
      ensures connection == Some(old(connection.value).(open := true))
      ensures old(connection.value.origin).Incoming? ==>
        && sent == old(sent) + [HostInfo(hostName, hostGender, hostPlayerType)]
        && events == old(events) + [Established(true, hostName, None)]
      ensures old(connection.value.origin).Dialed? ==>
        var dial := old(connection.value.origin.dial);
        && sent == old(sent) + [GuestInfo(dial.name, dial.gender)]
        && events == old(events) + [Established(false, None, dial.name)]
    {
      connection := Some(connection.value.(open := true));
      match connection.value.origin
      case Dialed(dial) =>
        var _ := SendData(GuestInfo(dial.name, dial.gender));
        events := events + [Established(false, None, dial.name)];
      case Incoming =>
        var _ := SendData(HostInfo(hostName, hostGender, hostPlayerType));
        events := events + [Established(true, hostName, None)];
    }

    /** The data handler. A ping is answered with a pong carrying the same
        timestamp and goes no further; a pong goes no further; guest-info
        updates the guest fields on the host only, host-info the host fields
        on the guest only; every envelope but ping and pong then reaches
        onDataReceived unchanged. */
    method OnData(m: Message)
      modifies this`sent, this`events
      modifies this`guestName, this`guestGender, this`hostName, this`hostGender, this`hostPlayerType
      ensures m.Ping? ==> sent == old(sent) + (if IsConnected() then [Pong(m.timestamp)] else []) && events == old(events)
      ensures m.Pong? ==> sent == old(sent) && events == old(events)
      ensures !m.Ping? && !m.Pong? ==> sent == old(sent) && events == old(events) + [DataReceived(m)]
      ensures if m.GuestInfo? && isHost
        then guestName == m.name && guestGender == m.gender && PartnerName() == m.name && PartnerGender() == m.gender
        else guestName == old(guestName) && guestGender == old(guestGender)
      ensures if m.HostInfo? && !isHost
        then && hostName == m.name && hostGender == m.gender && hostPlayerType == m.playerType
             && PartnerName() == m.name && PartnerGender() == m.gender
        else hostName == old(hostName) && hostGender == old(hostGender) && hostPlayerType == old(hostPlayerType)
    {
      match m {
        case Ping(t) =>
          var _ := SendData(Pong(t));
          return;
        case Pong(_) =>
          return;
        case GuestInfo(name, gender) =>
          if isHost {
            guestName := name;
            guestGender := gender;
          }
        case HostInfo(name, gender, playerType) =>
          if !isHost {
            hostName := name;
            hostGender := gender;
            hostPlayerType := playerType;
          }
        case Other(_, _) =>
      }
      events := events + [DataReceived(m)];
    }

    /** The current connection's 'close' event: the keep-alive interval is
        cleared; after closeConnection the closure is reported, otherwise a
        reconnection is attempted. */
    method OnConnectionClose()
      requires Valid()
      modifies this`pingInterval, this`connection
      modifies this`isReconnecting, this`reconnectAttempts, this`events, this`backoff
      ensures Valid() && !pingInterval
      ensures connection == if old(connection).Some? then Some(old(connection.value).(open := false)) else None
      ensures old(manualDisconnect) ==>
        AttemptState() == old(AttemptState()).(events := old(events) + [ConnectionClosed])
      ensures !old(manualDisconnect) ==>
        AttemptState() == AttemptStep(old(AttemptState()), maxReconnectAttempts, None)
    {
      if connection.Some? {
        connection := Some(connection.value.(open := false));
      }
      pingInterval := false;
      if !manualDisconnect {
        AttemptReconnect(None);
      } else {
        events := events + [ConnectionClosed];
      }
    }

    /** The current connection's 'error' event. On a connection dialled by
        joinRoom, joinRoom's own handler runs first and reports that the room
        could not be reached; then the keep-alive interval is cleared and a
        reconnection is attempted with the error, whatever `manualDisconnect`
        says. */
    method OnConnectionError()
      requires Valid()
      modifies this`pingInterval, this`isReconnecting, this`reconnectAttempts, this`events, this`backoff
      ensures Valid() && !pingInterval
      ensures var dialed := old(connection).Some? && old(connection.value.origin).Dialed?;
        var reported := old(events) + if dialed then [ConnectionError(DialFailed(old(connection.value.origin.dial.room)))] else [];
        AttemptState() == AttemptStep(old(AttemptState()).(events := reported), maxReconnectAttempts, Some(LinkFault))
    {
      if connection.Some? && connection.value.origin.Dialed? {
        events := events + [ConnectionError(DialFailed(connection.value.origin.dial.room))];
      }
      pingInterval := false;
      AttemptReconnect(Some(LinkFault));
    }

    /** The peer's 'error' event. */
    method OnPeerError()
      modifies this`events
      ensures events == old(events) + [ConnectionError(PeerFault)]
    {
      events := events + [ConnectionError(PeerFault)];
    }

    /** PeerJS destroys the peer by itself after a fatal error. */
    method OnPeerDestroyed()
      requires Valid() && peer.Some?
      modifies this`peer
      ensures Valid() && peer == Some(old(peer.value).(destroyed := true))
    {
      peer := Some(peer.value.(destroyed := true));
    }

    /** A tick of a keep-alive interval (the current one or a stray one). */
    method OnPingTick(now: int)
      requires pingInterval || strayPingIntervals > 0
      modifies this`sent
      ensures sent == old(sent) + if IsConnected() then [Ping(now)] else []
    {
      if IsConnected() {
        var _ := SendData(Ping(now));
      }
    }

    /** The join timeout of an earlier joinRoom fires. */
    method OnJoinTimeout()
      requires joinTimeouts > 0
      modifies this`joinTimeouts, this`events
      ensures joinTimeouts == old(joinTimeouts) - 1
      ensures events == old(events) + if IsConnected() then [] else [ConnectionError(JoinTimeout)]
    {
      joinTimeouts := joinTimeouts - 1;
      if !IsConnected() {
        events := events + [ConnectionError(JoinTimeout)];
      }
    }

    /** sendData: transmits only on an open connection, and says whether it did. */
    method SendData(m: Message) returns (ok: bool)
      modifies this`sent
      ensures ok <==> IsConnected()
      ensures sent == old(sent) + if ok then [m] else []
    {
      if connection.Some? && connection.value.open {
        sent := sent + [m];
        ok := true;
      } else {
        ok := false;
      }
    }

    /** sendGameUpdate and sendGameResults: the payload, opaque here, in a
        'game-update' or 'game-results' envelope. */
    method SendGameUpdate(gameData: string) returns (ok: bool)
      modifies this`sent
      ensures ok <==> IsConnected()
      ensures sent == old(sent) + if ok then [Other("game-update", gameData)] else []
    {
      ok := SendData(Other("game-update", gameData));
    }

    method SendGameResults(results: string) returns (ok: bool)
      modifies this`sent
      ensures ok <==> IsConnected()
      ensures sent == old(sent) + if ok then [Other("game-results", results)] else []
    {
      ok := SendData(Other("game-results", results));
    }

    /** closeConnection: suppresses reconnection on the next close event,
        clears the keep-alive interval and drops the connection and the peer.
        A second call changes nothing. The reconnection timers are left
        pending. */
    method CloseConnection()
      requires Valid()
      modifies this`manualDisconnect, this`pingInterval, this`connection, this`peer, this`dialOnPeerOpen
      ensures Valid() && TornDown()
      ensures old(TornDown()) ==> unchanged(this)
    {
      manualDisconnect := true;
      pingInterval := false;
      connection := None;
      peer := None;
      dialOnPeerOpen := None;
    }

    /** closeConnection as its comment intends it ("prevent auto-reconnect"):
        it also cancels a pending backoff or settle check and every pending
        join timeout, and releases the guard, so no reconnection timer is
        left to fire after the player has left. Keep-alive intervals that
        were leaked earlier (`strayPingIntervals`) cannot be cleared and go
        on ticking, and a later connection error still runs
        attemptReconnect. */
    method CloseConnectionCancellingRetries()
      requires Valid()
      modifies this`manualDisconnect, this`pingInterval, this`connection, this`peer, this`dialOnPeerOpen
      modifies this`backoff, this`settlePending, this`isReconnecting, this`joinTimeouts
      ensures Valid() && TornDown()
      ensures backoff.None? && !settlePending && !isReconnecting && joinTimeouts == 0
      ensures strayPingIntervals == old(strayPingIntervals)
      ensures old(TornDown() && !isReconnecting && joinTimeouts == 0) ==> unchanged(this)
    {
      CloseConnection();
      backoff := None;
      settlePending := false;
      isReconnecting := false;
      joinTimeouts := 0;
    }

    /** attemptReconnect(error). */
    method AttemptReconnect(error: Option<Fault>)
      requires Valid()
      modifies this`isReconnecting, this`reconnectAttempts, this`events, this`backoff
      ensures Valid()
      ensures AttemptState() == AttemptStep(old(AttemptState()), maxReconnectAttempts, error)
      ensures old(isReconnecting) ==> unchanged(this)
    {
      if isReconnecting {
        return;
      }
      isReconnecting := true;
      reconnectAttempts := reconnectAttempts + 1;
      events := events + [Reconnecting(reconnectAttempts, maxReconnectAttempts)];
      if error.Some? {
        events := events + [ConnectionError(error.value)];
      }
      if reconnectAttempts > maxReconnectAttempts {
        isReconnecting := false;
        events := events + [ReconnectFailed];
        events := events + [ConnectionClosed];
        return;
      }
      backoff := Some(BackoffDelay(reconnectAttempts));
    }

    /** The backoff timer fires. A missing or destroyed peer is re-created,
        with a random identity even on the host, whose identity was the room
        code. The host then simply releases the guard and reports success,
        without resetting the counter; the guest rejoins the same room with
        its own name and gender and schedules the settle check, keeping the
        guard. */
    method OnBackoffElapsed()
      requires Valid() && backoff.Some?
      modifies this`backoff, this`settlePending, this`isReconnecting, this`events
      modifies this`isHost, this`roomCode, this`guestName, this`guestGender, this`manualDisconnect
      modifies this`peer, this`dialOnPeerOpen, this`joinTimeouts
      ensures Valid() && backoff.None?
      ensures reconnectAttempts == old(reconnectAttempts)
      ensures old(isHost) ==>
        && !isReconnecting && !settlePending && events == old(events) + [Reconnected]
        && isHost && roomCode == old(roomCode)
        && guestName == old(guestName) && guestGender == old(guestGender)
        && manualDisconnect == old(manualDisconnect) && joinTimeouts == old(joinTimeouts)
        && (if old(peer).None? || old(peer.value.destroyed)
            then peer == Some(Peer(None, false, false)) && dialOnPeerOpen.None?
            else peer == old(peer) && dialOnPeerOpen == old(dialOnPeerOpen))
      ensures !old(isHost) ==> GuestRejoined(old(roomCode), old(guestName), old(guestGender), old(events), old(joinTimeouts))
    {
      if peer.None? || peer.value.destroyed {
        InitializePeer();
      }
      ResumeAfterBackoff();
    }

    /** The backoff timer as it is evidently meant to work: a host whose peer
        has to be re-created gets one whose identity is the room code again,
        so the guest, which dials the room code, can reach it. */
    method OnBackoffElapsedKeepingRoom()
      requires Valid() && backoff.Some?
      modifies this`backoff, this`settlePending, this`isReconnecting, this`events
      modifies this`isHost, this`roomCode, this`guestName, this`guestGender, this`manualDisconnect
      modifies this`peer, this`dialOnPeerOpen, this`joinTimeouts
      ensures Valid() && backoff.None?
      ensures reconnectAttempts == old(reconnectAttempts)
      ensures old(isHost) ==>
        && !isReconnecting && !settlePending && events == old(events) + [Reconnected]
        && isHost && roomCode == old(roomCode)
        && guestName == old(guestName) && guestGender == old(guestGender)
        && manualDisconnect == old(manualDisconnect) && joinTimeouts == old(joinTimeouts)
        && (if old(peer).None? || old(peer.value.destroyed)
            then peer == Some(Peer(roomCode, false, false)) && dialOnPeerOpen.None?
            else peer == old(peer) && dialOnPeerOpen == old(dialOnPeerOpen))
      ensures !old(isHost) ==> GuestRejoined(old(roomCode), old(guestName), old(guestGender), old(events), old(joinTimeouts))
    {
      if peer.None? || peer.value.destroyed {
        InitializePeerWithId(if isHost then roomCode else None);
      }
      ResumeAfterBackoff();
    }

    /** The state of a guest after the backoff: it has rejoined room `room`
        as `name` and `gender` on a fresh peer, with the dial waiting for the
        peer, one more join timeout and the settle check pending, the guard
        still held and no callback invoked. */
    ghost predicate GuestRejoined(room: Text, name: Text, gender: Text, before: seq<Event>, timeouts: nat)
      reads this
    {
      && isReconnecting && settlePending && events == before
      && !isHost && roomCode == room && guestName == name && guestGender == gender
      && !manualDisconnect
      && peer == Some(Peer(None, false, false))
      && dialOnPeerOpen == Some(Dial(room, name, gender))
      && joinTimeouts == timeouts + 1
    }

    /** What the backoff timer does once the peer exists: the role decides. */
    method ResumeAfterBackoff()
      requires Valid() && backoff.Some? && peer.Some?
      modifies this`backoff, this`settlePending, this`isReconnecting, this`events
      modifies this`isHost, this`roomCode, this`guestName, this`guestGender, this`manualDisconnect
      modifies this`peer, this`dialOnPeerOpen, this`joinTimeouts
      ensures Valid() && backoff.None?
      ensures reconnectAttempts == old(reconnectAttempts)
      ensures old(isHost) ==>
        && !isReconnecting && !settlePending && events == old(events) + [Reconnected]
        && isHost && roomCode == old(roomCode)
        && guestName == old(guestName) && guestGender == old(guestGender)
        && manualDisconnect == old(manualDisconnect) && joinTimeouts == old(joinTimeouts)
        && peer == old(peer) && dialOnPeerOpen == old(dialOnPeerOpen)
      ensures !old(isHost) ==> GuestRejoined(old(roomCode), old(guestName), old(guestGender), old(events), old(joinTimeouts))
    {
      if isHost {
        backoff, isReconnecting := None, false;
        events := events + [Reconnected];
      } else {
        // the settle check is scheduled right after the rejoin
        backoff, settlePending := None, true;
        var threw := JoinRoom(roomCode, guestName, guestGender);
      }
    }

    /** The guest's settle check: an open connection ends the reconnection
        and resets the counter; otherwise the guard is released and
        attemptReconnect runs again. */
    method OnSettleCheck()
      requires Valid() && settlePending
      modifies this`settlePending, this`isReconnecting, this`reconnectAttempts, this`events, this`backoff
      ensures Valid() && !settlePending
      ensures IsConnected() ==>
        !isReconnecting && reconnectAttempts == 0 && backoff.None? && events == old(events) + [Reconnected]
      ensures !IsConnected() ==>
        AttemptState() == RetryAfterFailedSettle(old(AttemptState()), maxReconnectAttempts)
    {
      settlePending := false;
      if IsConnected() {
        isReconnecting := false;
        reconnectAttempts := 0;
        events := events + [Reconnected];
      } else {
        isReconnecting := false;
        AttemptReconnect(None);
      }
    }

    function PartnerName(): (name: Text)
      reads this
      ensures isHost ==> name == guestName
      ensures !isHost ==> name == hostName
    {
      if isHost then guestName else hostName
    }

    function PartnerGender(): (gender: Text)
      reads this
      ensures isHost ==> gender == guestGender
      ensures !isHost ==> gender == hostGender
    {
      if isHost then guestGender else hostGender
    }
  }

  // ---------------------------------------------------------------------------
  // Scenarios

  /** A host whose room has been created and whose guest has connected. */
  method OpenedHost(name: Text, gender: Text, playerType: Text, draw: nat) returns (host: GameConnection, code: string)
    requires draw < 9000
    ensures fresh(host) && host.Valid() && host.IsConnected() && host.isHost && IsRoomCode(code)
    ensures host.roomCode == Some(code) && host.hostName == name && host.hostGender == gender
    ensures host.hostPlayerType == playerType && host.guestName.None? && host.guestGender.None?
    ensures host.peer == Some(Peer(Some(code), true, false))
    ensures !host.manualDisconnect && !host.isReconnecting && host.reconnectAttempts == 0
    ensures host.sent == [HostInfo(name, gender, playerType)]
    ensures host.events == [Established(true, name, None)]
  {
    host := new GameConnection();
    code := host.CreateRoom(name, gender, playerType, draw);
    host.OnPeerOpen();
    host.OnIncomingConnection();
    host.OnConnectionOpen();
  }

  /** A guest that has joined room `room` and whose connection has opened. */
  method OpenedGuest(room: Text, name: Text, gender: Text) returns (guest: GameConnection)
    ensures fresh(guest) && guest.Valid() && guest.IsConnected() && !guest.isHost
    ensures guest.roomCode == room && guest.guestName == name && guest.guestGender == gender
    ensures guest.hostName.None? && guest.hostGender.None? && guest.hostPlayerType.None?
    ensures !guest.manualDisconnect && !guest.isReconnecting && guest.reconnectAttempts == 0
    ensures guest.joinTimeouts == 1
    ensures guest.sent == [GuestInfo(name, gender)]
    ensures guest.events == [Established(false, None, name)]
  {
    guest := new GameConnection();
    guest.InitializePeer();
    var threw := guest.JoinRoom(room, name, gender);
    guest.OnPeerOpen();
    guest.OnConnectionOpen();
  }

  /** A host "Alice" and a guest "Bob" pair up through the room code: once
      each side has received the other's announcement, each knows the
      other's name and gender. */
  method Pairing(draw: nat) returns (host: GameConnection, guest: GameConnection)
    requires draw < 9000
    ensures host.PartnerName() == Some("Bob") && host.PartnerGender() == Some("m")
    ensures guest.PartnerName() == Some("Alice") && guest.PartnerGender() == Some("f")
    ensures guest.hostPlayerType == Some("real")
    ensures host.events == [Established(true, Some("Alice"), None), DataReceived(GuestInfo(Some("Bob"), Some("m")))]
    ensures guest.events == [Established(false, None, Some("Bob")), DataReceived(HostInfo(Some("Alice"), Some("f"), Some("real")))]
  {
    var code;
    host, code := OpenedHost(Some("Alice"), Some("f"), Some("real"), draw);
    guest := OpenedGuest(Some(code), Some("Bob"), Some("m"));
    host.OnData(guest.sent[0]);
    guest.OnData(host.sent[0]);
  }

  /** As written: a guest whose link drops starts a reconnection; the player
      then leaves with closeConnection, but the pending backoff still fires,
      rejoins the room and clears `manualDisconnect` again. The join timeouts
      of the first join and of the rejoin are both still pending. */
  method LeaveDuringBackoff() returns (guest: GameConnection)
    ensures !guest.manualDisconnect && guest.isReconnecting && guest.settlePending
    ensures guest.joinTimeouts == 2
    ensures guest.dialOnPeerOpen == Some(Dial(Some("LOVE-1234"), Some("Bob"), Some("m")))
  {
    guest := OpenedGuest(Some("LOVE-1234"), Some("Bob"), Some("m"));
    guest.OnConnectionClose();
    guest.CloseConnection();
    guest.OnBackoffElapsed();
  }

  /** With the corrected close, nothing is left pending after the player
      leaves: neither the backoff, nor the settle check, nor the join timeout
      of the first joinRoom can fire, and the counter stays at the one
      attempt made. */
  method LeaveDuringBackoffCorrected() returns (guest: GameConnection)
    ensures guest.TornDown() && !guest.isReconnecting
    ensures guest.backoff.None? && !guest.settlePending && guest.joinTimeouts == 0
    ensures guest.reconnectAttempts == 1
    ensures guest.events == [Established(false, None, Some("Bob")), Reconnecting(1, 3)]
  {
    guest := OpenedGuest(Some("LOVE-1234"), Some("Bob"), Some("m"));
    guest.OnConnectionClose();
    guest.CloseConnectionCancellingRetries();
  }

  /** As written: the host's peer is destroyed and its guest's link drops;
      when the backoff fires, the host reports a successful reconnection on a
      new peer whose identity is random, no longer the room code the guest
      dials. */
  method HostRebornUnderRandomId(draw: nat) returns (host: GameConnection, code: string)
    requires draw < 9000
    ensures host.roomCode == Some(code) && host.peer == Some(Peer(None, false, false))
    ensures host.events == [Established(true, Some("Alice"), None), Reconnecting(1, 3), Reconnected]
  {
    host, code := OpenedHost(Some("Alice"), Some("f"), Some("real"), draw);
    host.OnPeerDestroyed();
    host.OnConnectionClose();
    host.OnBackoffElapsed();
  }

  /** With the corrected backoff the re-created peer answers to the room
      code again. */
  method HostRebornKeepingRoom(draw: nat) returns (host: GameConnection, code: string)
    requires draw < 9000
    ensures host.roomCode == Some(code) && host.peer == Some(Peer(Some(code), false, false))
    ensures host.events == [Established(true, Some("Alice"), None), Reconnecting(1, 3), Reconnected]
  {
    host, code := OpenedHost(Some("Alice"), Some("f"), Some("real"), draw);
    host.OnPeerDestroyed();
    host.OnConnectionClose();
    host.OnBackoffElapsedKeepingRoom();
  }
}
