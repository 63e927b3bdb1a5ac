# Love Run: connection manager and game rules in Dafny

Love Run is a two-player browser race. One player hosts a room with a code of
the form `LOVE-####`, and the other joins it over a PeerJS (WebRTC) data
connection. Each player then runs along the ground collecting hearts and
dodging obstacles for sixty seconds. At the end the two scores give a "love
compatibility" percentage and a verdict.

This project models three parts of that program and proves properties of the
models:

* `connection.dfy` (module `Connection`) models the connection manager of
  `connection.js`. A `GameConnection` object owns:
  * the peer and the current data connection;
  * the names and genders of both players;
  * the keep-alive interval;
  * the reconnection state machine (`attemptReconnect`): the attempt counter,
    the `isReconnecting` guard, the exponential backoff, and the guest's
    settle check.

  Each transport event is a method the environment calls, and so is each
  timer firing. These are: the peer opening, an incoming connection, a
  connection opening, closing or failing, a data envelope, the backoff, the
  settle check, the join timeout and a keep-alive tick. Every callback the
  code invokes is appended to `events`, and every envelope it transmits to
  `sent`. The part of the state that `attemptReconnect` touches is also
  described by a pure function, `AttemptStep`. The lemmas about the retry
  budget are stated over that function.
* `gameplay_connection.dfy` (module `GameplayConnection`) models the earlier
  manager in `gameplay/connection.js`. It has no keep-alive and no
  reconnection. Every envelope is forwarded and every close is reported. Its
  createRoom does not give the peer the room code as its identity (see
  "## Findings").
* `game.dfy` (module `Game`) models the rules of `LoveRunGame` in `game.js`
  without the canvas:
  * collision of axis-aligned boxes;
  * the jump guard;
  * the horizontal clamp;
  * the backward sweep that moves hearts and obstacles, scores them and
    splices them out;
  * the resets of `initGame` and the copy in `updatePartnerState`;
  * the feedback line and the verdict of `endGame`.

  The sweeps are loops over the `hearts` and `obstacles` sequences. They are
  proved against the recursive functions `Survivors` and `Hits`, and the
  lemmas about those functions give what a frame does to the items and to the
  score.
* `wire.dfy` (module `Wire`) holds the values both managers share:
  * the envelopes (`Message`);
  * the callback invocations (`Event`);
  * the abstract peer and connection handles;
  * the room codes, with the round trip between a number in [1000, 9999] and
    its code.

## Model

| member | source | states |
|---|---|---|
| Wire.DecimalString | connection.js:111 | the decimal form of a number is all digits, with a leading zero only for zero |
| Wire.DecimalValueOfString | connection.js:111 | reading back the decimal form of `n` gives `n` |
| Wire.DecimalValueBounds | connection.js:111 | a k-digit string without a leading zero stands for a number in [10^(k-1), 10^k) |
| Wire.DecimalStringOfValue | connection.js:111 | a digit string without a leading zero is the decimal form of its value |
| Wire.FourDigits | connection.js:111 | numbers 1000 to 9999 have four digits |
| Wire.RoomCode | connection.js:111 | the code of `n` in [1000, 9999] is `LOVE-` and four digits, the first not zero, and it carries `n` |
| Wire.RoomCodeOfNumber | gameplay/connection.js:75 | every well-formed code is the code of exactly one number in [1000, 9999], so the codes createRoom can produce are exactly the well-formed ones |
| Connection.BackoffDelay | connection.js:496 | the wait before attempt n lies in [1000, 10000] ms and is 1000 ms for the first attempt |
| Connection.BackoffDelayMonotone | connection.js:496 | a later attempt never waits less |
| Connection.BackoffDelayDoubles | connection.js:496 | each wait is twice the previous one, up to the cap |
| Connection.BackoffDelayCapped | connection.js:496 | from the fifth attempt on, the wait is the 10 s cap |
| Connection.AttemptStep | connection.js:459-496 | one call of attemptReconnect on the counter, guard, backoff and callback log: the counter rises by at most one, the log only grows at its end, and a held guard comes with a scheduled backoff unless it was already held (`AttemptOutcome` gives the exact step) |
| Connection.AttemptWhileReconnecting | connection.js:459-463 | a call while `isReconnecting` changes nothing and invokes no callback |
| Connection.AttemptOutcome | connection.js:465-496 | otherwise the counter rises by exactly 1; onReconnecting gets (count, max), then onConnectionError gets the error if there is one; within the budget a backoff of `BackoffDelay(count)` is scheduled with the guard held; past it the guard is released, onReconnectFailed then onConnectionClosed fire, and nothing is scheduled |
| Connection.FailedRetriesWithinBudget | connection.js:459-534 | while the budget lasts, each failed backoff and settle round announces the next attempt number and schedules its backoff |
| Connection.RetriesExhausted | connection.js:459-534 | from idle, a guest that never reconnects makes exactly max + 1 attempts, announced 1 to max + 1, then gets onReconnectFailed then onConnectionClosed, with no guard and no backoff or settle check left |
| Connection.ExhaustedAttemptFailsAgain | connection.js:303-319 | once the budget is exceeded, a later close runs attemptReconnect again: attempt max + 2 is announced and the failure is reported a second time |
| Connection.GameConnection.constructor | connection.js:7-31 | no peer, no connection, no identities, counter 0, no guard, no manual disconnect, nothing sent or reported |
| Connection.GameConnection.InitializePeerWithId | connection.js:44-91 | a fresh, not yet open peer with the given identity (random when none), with no listener of an earlier peer |
| Connection.GameConnection.InitializePeer | connection.js:36-38 | a fresh peer with a random identity |
| Connection.GameConnection.CreateRoom | connection.js:100-122 | becomes host with the given name, gender and player type; clears manual disconnect and the counter; returns the well-formed code of 1000 + draw, stored as the room code; the new peer's identity is that code |
| Connection.GameConnection.JoinRoom | connection.js:141-222 | becomes guest of the room with the given name and gender and clears manual disconnect. With a peer: replaces it with a fresh peer, leaves the dial for the peer's 'open' and schedules a join timeout. Without a peer: throws, with nothing dialled and no timeout. The attempt counter is kept |
| Connection.GameConnection.SetupConnectionListeners | connection.js:259-271 | the connection becomes current and a keep-alive interval starts; an interval already running is leaked, not cleared |
| Connection.GameConnection.OnPeerOpen | connection.js:206-211 | the peer is open; a waiting dial becomes the current (not yet open) connection |
| Connection.GameConnection.OnIncomingConnection | connection.js:228-230 | an incoming connection replaces the current one and starts a keep-alive interval |
| Connection.GameConnection.OnConnectionOpen | connection.js:170-189 | on open, the host sends host-info and reports `{isHost: true, hostName}`; the guest sends guest-info with its joinRoom arguments and reports `{isHost: false, guestName}` (host side at connection.js:232-250) |
| Connection.GameConnection.OnData | connection.js:273-301 | a ping is answered by exactly one pong with its timestamp and not forwarded; a pong is dropped; guest-info sets the guest fields only on the host, host-info the host fields only on the guest; every other envelope reaches onDataReceived unchanged |
| Connection.GameConnection.OnConnectionClose | connection.js:303-319 | clears the keep-alive; after closeConnection it reports onConnectionClosed; otherwise its effect is exactly one `AttemptStep` |
| Connection.GameConnection.OnConnectionError | connection.js:321-331 | clears the keep-alive and makes one `AttemptStep` with the error, whatever manual disconnect says; on a dialled connection, joinRoom's handler first reports the unreachable room (connection.js:191-198) |
| Connection.GameConnection.OnPeerError | connection.js:80-85 | the peer's error is reported |
| Connection.GameConnection.OnPeerDestroyed | connection.js:502 | the peer is marked destroyed, as the backoff timer checks |
| Connection.GameConnection.OnPingTick | connection.js:264-271 | a keep-alive tick sends one ping with the current time only on an open connection |
| Connection.GameConnection.OnJoinTimeout | connection.js:214-221 | the join timeout reports a timeout error exactly when no connection is open |
| Connection.GameConnection.IsConnected | connection.js:543-545 | true exactly when there is a current connection and it is open |
| Connection.GameConnection.SendData | connection.js:338-347 | returns true and transmits the envelope exactly once when the connection is open; otherwise returns false and transmits nothing |
| Connection.GameConnection.SendGameUpdate | connection.js:353-358 | sends a game-update envelope under the rule of sendData |
| Connection.GameConnection.SendGameResults | connection.js:364-369 | sends a game-results envelope under the rule of sendData |
| Connection.GameConnection.CloseConnection | connection.js:430-453 | sets manual disconnect, clears the keep-alive, drops the connection and the peer; a second call changes nothing |
| Connection.GameConnection.CloseConnectionCancellingRetries | connection.js:430-453 | the corrected close: as closeConnection, and no backoff, settle check, join timeout or guard is left, so no reconnection timer can fire after leaving; keep-alive intervals leaked earlier are not cleared and still tick |
| Connection.GameConnection.AttemptReconnect | connection.js:459-496 | the new counter, guard, backoff and callback log are exactly `AttemptStep` of the old ones; a call while reconnecting changes nothing |
| Connection.GameConnection.OnBackoffElapsed | connection.js:498-518 | recreates a missing or destroyed peer with a random identity. The host releases the guard and reports onReconnected without resetting the counter. The guest rejoins the same room with its own name and gender, and the settle check is pending with the guard held |
| Connection.GameConnection.OnBackoffElapsedKeepingRoom | connection.js:498-515 | the corrected backoff: a host's recreated peer answers to the room code again |
| Connection.GameConnection.ResumeAfterBackoff | connection.js:507-518 | what the backoff does once a peer exists, by role, as above |
| Connection.GameConnection.OnSettleCheck | connection.js:520-534 | with an open connection: guard released, counter reset to 0, onReconnected. Otherwise: exactly one `RetryAfterFailedSettle` step |
| Connection.GameConnection.PartnerName | connection.js:551-553 | the guest's name on the host, the host's name on the guest |
| Connection.GameConnection.PartnerGender | connection.js:559-561 | the guest's gender on the host, the host's gender on the guest |
| Connection.OpenedHost | connection.js:100-122 | a host that created a room and accepted a guest has sent host-info once and reported the connection once |
| Connection.OpenedGuest | connection.js:141-222 | a guest whose dial opened has sent guest-info once and reported the connection once; its join timeout is still pending |
| Connection.Pairing | connection.js:273-301 | Alice hosts and Bob joins with her code: after the announcements each side's partner name and gender are the other's |
| Connection.LeaveDuringBackoff | connection.js:430-453 | as written: leaving during a backoff does not stop it; it rejoins the room and clears manual disconnect again, and two join timeouts are left pending |
| Connection.LeaveDuringBackoffCorrected | connection.js:430-453 | with the corrected close no backoff, settle check or join timeout is pending after leaving, so no reconnection timer can fire after leaving |
| Connection.HostRebornUnderRandomId | connection.js:502-503 | as written: a host whose peer was destroyed reports onReconnected on a peer with a random identity, not its room code |
| Connection.HostRebornKeepingRoom | connection.js:502-503 | corrected: the recreated host peer's identity is the room code |
| GameplayConnection.GameConnection.constructor | gameplay/connection.js:7-23 | no peer, no connection, no identities, nothing sent or reported |
| GameplayConnection.GameConnection.InitializePeerWithId | gameplay/connection.js:28-59 | a helper of the corrected `CreateRoomAnsweringCode` (the source always passes a null id); with `None` it is the source's initializePeer: a fresh, not yet open peer with the given identity and no waiting dial, answering to that identity |
| GameplayConnection.GameConnection.InitializePeer | gameplay/connection.js:28-59 | a fresh, not yet open peer with a random identity and no waiting dial |
| GameplayConnection.GameConnection.CreateRoom | gameplay/connection.js:68-78 | becomes host with the given fields and returns the well-formed code of 1000 + draw; the peer is left as it is |
| GameplayConnection.GameConnection.CreateRoomAnsweringCode | gameplay/connection.js:68-78 | the corrected createRoom: as createRoom, and the peer is re-created under the room code, so it answers to the code a guest dials |
| GameplayConnection.GameConnection.JoinRoom | gameplay/connection.js:97-154 | becomes guest with the given fields; dials at once on an open peer, else queues the dial for the peer's 'open'; throws without a peer |
| GameplayConnection.GameConnection.OnPeerOpen | gameplay/connection.js:150-152 | every queued dial goes out, in order |
| GameplayConnection.GameConnection.OnIncomingConnection | gameplay/connection.js:160-162 | an incoming connection replaces the current one |
| GameplayConnection.GameConnection.OnIncomingOpen | gameplay/connection.js:164-182 | the host sends host-info and reports `{isHost: true, hostName}` |
| GameplayConnection.GameConnection.OnDialOpen | gameplay/connection.js:112-130 | the opened dial becomes the connection; the guest sends guest-info with its joinRoom arguments and reports `{isHost: false, guestName}` |
| GameplayConnection.GameConnection.OnDialError | gameplay/connection.js:133-140 | a failed dial is reported as an unreachable room and then as a link error |
| GameplayConnection.GameConnection.OnData | gameplay/connection.js:192-208 | guest-info sets the guest fields only on the host, host-info the host fields only on the guest; every envelope, pings and pongs included, reaches onDataReceived unchanged |
| GameplayConnection.GameConnection.OnConnectionClose | gameplay/connection.js:210-215 | every close is reported, once |
| GameplayConnection.GameConnection.OnConnectionError | gameplay/connection.js:217-222 | the error is reported, after joinRoom's report on a dialled connection |
| GameplayConnection.GameConnection.OnPeerError | gameplay/connection.js:48-53 | the peer's error is reported |
| GameplayConnection.GameConnection.IsConnected | gameplay/connection.js:310-312 | true exactly when there is a current connection and it is open |
| GameplayConnection.GameConnection.SendData | gameplay/connection.js:229-238 | returns true and transmits once exactly when the connection is open; otherwise false and nothing sent |
| GameplayConnection.GameConnection.SendGameUpdate | gameplay/connection.js:244-249 | sends a game-update envelope under the rule of sendData |
| GameplayConnection.GameConnection.SendGameResults | gameplay/connection.js:255-260 | sends a game-results envelope under the rule of sendData |
| GameplayConnection.GameConnection.CloseConnection | gameplay/connection.js:297-304 | closes the connection and destroys the peer but keeps both; afterwards nothing can be sent |
| GameplayConnection.GameConnection.PartnerName | gameplay/connection.js:318-320 | the guest's name on the host, the host's name on the guest |
| GameplayConnection.GameConnection.PartnerGender | gameplay/connection.js:326-328 | the guest's gender on the host, the host's gender on the guest |
| GameplayConnection.HostBehindRandomId | gameplay/connection.js:68-78 | as written: after the start-up initializePeer (gameplay/app.js:40) and createRoom, the host's peer has a random identity and does not answer to its room code |
| GameplayConnection.OpenedHost | gameplay/connection.js:160-185 | a host created with the corrected createRoom whose guest connected answers to its code, has sent host-info once and reported the connection once |
| GameplayConnection.OpenedGuest | gameplay/connection.js:97-154 | a guest that joined before its peer opened ends connected, having sent guest-info once |
| GameplayConnection.PairingThenDrop | gameplay/connection.js:192-215 | with the corrected createRoom the host answers to the room the guest dialled; the partners learn each other's names; a ping is forwarded unanswered; a drop is reported at once with no reconnection |
| Game.Collides | game.js:359-364 | strict overlap on both axes; a collision needs a positive combined width and height (`CollidesIffSharedCell` gives its meaning for boxes with a size) |
| Game.CollidesIffSharedCell | game.js:359-364 | two boxes with a size collide exactly when some pixel cell lies in both; collision is symmetric; boxes touching along an edge do not collide |
| Game.ColorFor | game.js:132-133 | blue exactly for the gender "male", pink otherwise |
| Game.Jumped | game.js:316-322 | after a jump the player is airborne; from the ground, velocity becomes -jumpForce and nothing else changes; in the air, nothing changes |
| Game.JumpIdempotent | game.js:316-322 | a second jump while airborne changes nothing |
| Game.ClampX | game.js:291-295 | on a canvas at least as wide as the player, x ends in [0, canvas.width - width] and an x already inside is kept; on a narrower canvas the player ends at canvas.width - width |
| Game.ClampXIdempotent | game.js:291-295 | clamping twice is clamping once |
| Game.SweepAccounts | game.js:224-261 | each item in a sweep is exactly one of kept, collected or dropped |
| Game.SurvivorsExactly | game.js:224-240 | the kept items are exactly the moved images of the items that, once moved, neither touch the player nor are off screen |
| Game.SurvivorsClear | game.js:236-239 | no kept item overlaps the player or lies off screen |
| Game.Decremented | game.js:249-251 | a hit lowers a positive score by one and leaves a score of zero at zero |
| Game.PenalisedFloor | game.js:243-261 | from a non-negative score, h obstacle hits leave max(0, score - h) |
| Game.FeedbackFor | game.js:513-526 | "pulling ahead" exactly above +5, "catching up" exactly below -5, "neck and neck" exactly in [0, 5], "don't give up" exactly in [-5, 0) |
| Game.FeedbackBothSides | game.js:513-526 | a lead above 5 reads as a lead to one player and a chase to the other; both read "neck and neck" only on a tie; a lead of 1 to 5 reads "neck and neck" to the leader and "don't give up" to the other |
| Game.Compatibility | game.js:549-551 | the compatibility is the total score, capped at 100 |
| Game.VerdictFor | game.js:554-565 | the five verdicts cover the bands >= 90, [70, 90), [50, 70), [30, 50) and < 30, exactly |
| Game.VerdictMonotone | game.js:549-565 | a higher total never earns a worse verdict |
| Game.ResizeAsWritten | game.js:82-93 | as written: resizeCanvas throws exactly when `players` is still undefined; otherwise the ground is 80 px above the bottom and both players stand on it |
| Game.ResizeGuarded | game.js:82-93 | corrected: resizeCanvas never throws, skips undefined players and otherwise agrees with the code as written |
| Game.ConstructorThrows | game.js:7-77 | as written, construction throws on every canvas |
| Game.GuardedConstructorSucceeds | game.js:7-77 | with the guard corrected, construction succeeds with the initialised players and ground 0 |
| Game.LoveRunGame.constructor | game.js:7-77 | the initial state of the corrected construction: not running, 60 s, both players at x = 50, y = 0, score 0 with the default colours, no items, ground 0 |
| Game.LoveRunGame.Resize | game.js:82-93 | the ground is 80 px above the bottom and both players stand on it |
| Game.LoveRunGame.InitGame | game.js:125-154 | names, genders and colours from the data; self at x = 50 and partner at x = 150, both on the ground; both scores 0; no hearts or obstacles; full time; feedback "neck and neck"; jump state untouched |
| Game.LoveRunGame.StartGame | game.js:159-165 | starts the clock only when not already running |
| Game.LoveRunGame.StopGame | game.js:170-172 | the game stops |
| Game.LoveRunGame.UpdateGameFeedback | game.js:513-526 | the feedback shown is that of the current score difference |
| Game.LoveRunGame.Jump | game.js:316-322 | the named player is `Jumped`, the other untouched; in the air nothing changes at all |
| Game.LoveRunGame.MoveSelf | game.js:282-296 | self steps right and/or left by its speed, then is clamped; on a wide enough canvas x ends in [0, canvas.width - width] |
| Game.LoveRunGame.SpawnHeart | game.js:327-337 | one 30 x 30 heart is appended at the right edge |
| Game.LoveRunGame.SpawnObstacle | game.js:342-351 | one obstacle 30 wide is appended at the right edge, standing on the ground |
| Game.LoveRunGame.SweepHearts | game.js:224-240 | the hearts become `Survivors` of the old hearts; the score rises by exactly `Hits`; the feedback is refreshed when a heart was collected |
| Game.LoveRunGame.SweepObstacles | game.js:243-261 | the obstacles become `Survivors`; the score falls by the hits, never below zero; the score stays non-negative |
| Game.LoveRunGame.SpawnDue | game.js:212-221 | a heart is appended exactly when more than 1 s has passed since the last, an obstacle exactly when more than 2 s has, and the spawn time is then now |
| Game.LoveRunGame.Update | game.js:205-272 | one frame (`Stepped`): move and clamp; spawn what is due; hearts and obstacles become the `Survivors` against the moved player; the score gains the hearts' `Hits` and is `Penalised` by the obstacles'; the feedback is refreshed exactly when something was hit; x, y, score and jump state are reported once |
| Game.LoveRunGame.GameLoop | game.js:178-199 | nothing while stopped; otherwise the clock runs down by the elapsed time. At zero the game stops and reports exactly the `GameResults` of endGame, with players, items, spawn times, feedback and updates unchanged; otherwise the frame is `Stepped` and no result is reported; a running game has time left |
| Game.LoveRunGame.UpdatePartnerState | game.js:532-540 | exactly x, y, score and jump state are copied into the partner; self is untouched; the feedback is refreshed |
| Game.LoveRunGame.EndGame | game.js:545-581 | stops the game and reports once: compatibility, its verdict, both scores and both names |

## Notable behaviour of the code

The model follows the code in each case:

* joinRoom in connection.js clears manual disconnect but not the attempt
  counter (connection.js:141-148).
* The join timeout fires after 15 s and the keep-alive every 30 s. A ping
  carries a timestamp only, and a pong echoes it. There is no staleness probe,
  no latency history and no jitter in the backoff.
* Once the attempt budget is exceeded, the counter is not reset. A later
  close runs attemptReconnect again, which announces attempt max + 2 and
  fails at once. See `Connection.ExhaustedAttemptFailsAgain`.
* Each rejoin of a guest schedules another 15 s join timeout
  (connection.js:214-221), and none is ever cleared. With the delays of the
  code, a guest whose link drops at 0 s rejoins at 1, 8 and 17 s, is told of
  attempts 2, 3 and 4 at 6, 13 and 22 s, and gets onReconnectFailed and
  onConnectionClosed at 22 s. Its join timeouts report onConnectionError at
  16, 23 and 32 s, so two of the three reports arrive after the final
  onConnectionClosed. `AttemptStep` and the budget lemmas describe the
  reconnection timers only; the join timeouts are the `joinTimeouts` count of
  the class.
* The host does not wait for a returning guest. It reports onReconnected as
  soon as the backoff fires.
* The guest's settle check resets the counter when the connection is open at
  socket level. It does not wait for an identity exchange.
* The connection error handler reconnects even after closeConnection. Only the
  close handler checks manual disconnect.
* A second incoming connection replaces the current one rather than being
  refused.
* onConnectionEstablished receives `{isHost, hostName, guestName}`, not a
  reconnect flag, and the guest's announcement carries no reconnect flag.
* setupConnectionListeners starts a new keep-alive interval without clearing
  one already running. The lost intervals are counted in `strayPingIntervals`.
* In connection.js, joinRoom always replaces an existing peer with a fresh one
  that is not open yet. Its "connect immediately" branch (connection.js:204-205)
  is therefore never taken. Without a peer, reading `this.peer.open` throws.

## Findings

| source | as written | input that shows it | evidently intended | confidence | as-written member | corrected member |
|---|---|---|---|---|---|---|
| connection.js:430-453 | closeConnection sets manual disconnect but leaves a pending backoff or settle check, and every join timeout. The backoff then fires: the guest rejoins the room, which clears manual disconnect again, and each join timeout can still report an error. | a guest's link drops, then the player leaves before the backoff fires | leaving stops reconnection: no backoff, settle check or join timeout pending, so no reconnection timer fires after leaving (a leaked keep-alive interval still ticks, and a later connection error still starts an attempt) | medium, not executed | Connection.LeaveDuringBackoff | Connection.GameConnection.CloseConnectionCancellingRetries |
| connection.js:502-503 | when the backoff fires and the host's peer is missing or destroyed, the new peer gets a random identity | a host's peer is destroyed and its guest's link drops; the backoff fires | the host's new peer takes the room code as its identity again, so the guest can reach it | medium, not executed | Connection.HostRebornUnderRandomId | Connection.GameConnection.OnBackoffElapsedKeepingRoom |
| gameplay/connection.js:68-78 | createRoom only stores the room code; the peer app.js created at start-up (gameplay/app.js:40) keeps its random identity, while a guest dials the code (gameplay/connection.js:108) | any room: initializePeer, then createRoom | the host's peer answers to the room code, as connection.js:113-119 does it | medium, not executed | GameplayConnection.HostBehindRandomId | GameplayConnection.GameConnection.CreateRoomAnsweringCode |
| game.js:89 | resizeCanvas reads `this.players.self`, and the constructor calls it (game.js:11) before `this.players` is assigned, so `new LoveRunGame(...)` throws and the global instance (game.js:601) is never created | any canvas | the guard skips the players while they are undefined | high, not executed | Game.ConstructorThrows | Game.ResizeGuarded |

The scenarios `Connection.LeaveDuringBackoffCorrected`,
`Connection.HostRebornKeepingRoom` and `GameplayConnection.PairingThenDrop`
replay the first three inputs with the corrected members.
`Game.GuardedConstructorSucceeds` shows construction with the corrected
guard, and `Game.LoveRunGame.constructor` starts from that state.

## Left out

* PeerJS itself is abstract. The model has no signalling server, ICE, STUN
  or TURN configuration (connection.js:44-75, gameplay/connection.js:28-42)
  and no handshake. A peer is its identity and its open and destroyed flags.
  A connection is its origin and its open flag.
* Real time is not modelled. The 30 s keep-alive period, the 15 s join
  timeout, the 5 s settle delay and the backoff delay are not waited for.
  Each timer firing is a method the environment calls, and the backoff delay
  is recorded as a value. `Date.now()` and `performance.now()` are
  parameters. Latency logging is left out.
* Connection events act on the current connection. A close, error or data
  event from a connection that has already been replaced is not
  distinguished, and neither is a late 'open' from an earlier peer.
* All callbacks are taken as registered. The model does not cover a missing
  callback, or app.js replacing a callback for one use.
* getShareableLink is not modelled because it depends on `window.location`.
  The callback setters are plain assignments and are not modelled either.
  getHostPlayerType reads the field `hostPlayerType` and is not modelled
  separately.
* Logging (`console.*`) and the text of error messages are left out. An error
  is its `Fault`.
* Game payloads are opaque strings in `Other(tag, body)` envelopes.
* gameplay/app.js is not part of this model, except for its start-up call of
  initializePeer (gameplay/app.js:40).
* Peers do not route connections by identity: a dial reaches whichever side
  the scenario connects it to. `Answers` states when a dial to a room could
  reach a host, and the scenarios state it where it matters.
* Game.LoveRunGame.Update: the vertical motion of updatePlayer (game.js:299-309)
  is not modelled. It uses floating-point gravity of 0.8 px per frame². The
  frame leaves y, the jump flag and the velocity as they were, so landing is
  not modelled.
* Game.LoveRunGame.GameLoop: the clock is counted in whole milliseconds
  rather than fractional seconds (game.js:185). Rendering and
  requestAnimationFrame are left out. Each frame is one call.
* Game.Compatibility: the total is an integer, and Math.round of
  `total / 100 * 100` is taken to give the total back. Floating-point rounding
  is not modelled.
* Game.LoveRunGame.constructor: the DOM and canvas set-up (game.js:9-11,
  65-76) is left out. The constructor models the construction with
  resizeCanvas's guard corrected (see "## Findings").
* The random draws are parameters. `draw` is `Math.floor(Math.random() * 9000)`
  for the room code. `heartY` and `obstacleHeight` are the scaled draws of
  spawnHeart and spawnObstacle.
* Rendering is left out: `render`, every `draw*` method, and the DOM side of
  updateGameFeedback and drawTimer.
* The keyboard and touch listeners (game.js:98-119) are left out. Their only
  rule, jumping on Space, ArrowUp or touch when on the ground, is
  `Game.LoveRunGame.Jump` with `SelfSide`. The held arrow keys are inputs of a
  frame.
