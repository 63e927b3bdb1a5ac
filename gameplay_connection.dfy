/** The earlier connection manager of gameplay/connection.js: no keep-alive
    and no reconnection; every envelope is forwarded to the application and
    every close is reported at once. Unlike connection.js, createRoom does not
    give the peer the room code as its identity. */
module GameplayConnection {
  import opened Wire

  class GameConnection {
    var peer: Option<Peer>
    var connection: Option<Link>
    var isHost: bool
    var roomCode: Text
    var hostName: Text
    var guestName: Text
    var hostGender: Text
    var guestGender: Text
    var hostPlayerType: Text

    /** Envelopes handed to the data connection, oldest first. */
    var sent: seq<Message>
    /** Application callbacks invoked, oldest first. */
    var events: seq<Event>

    /** connectToPeer closures joinRoom registered for the peer's 'open',
        oldest first: each call of joinRoom before the peer opens adds one. */
    var dialsOnPeerOpen: seq<Dial>
    /** Connections dialled by joinRoom that have not opened yet. Here a
        dialled connection becomes the current one only when it opens. */
    var dialing: seq<Dial>

    ghost predicate Valid()
      reads this
    {
      dialsOnPeerOpen != [] ==> peer.Some? && !peer.value.open
    }

    /** isConnected: there is a current connection and it is open. */
    function IsConnected(): (b: bool)
      reads this
      ensures b <==> connection.Some? && connection.value.open
    {
      connection.Some? && connection.value.open
    }

    /** A dial to `room` can reach this side: its peer is alive and its
        identity is `room`. */
    predicate Answers(room: Text)
      reads this
    {
      peer.Some? && !peer.value.destroyed && peer.value.id == room
    }

    constructor ()
      ensures Valid()
      ensures peer.None? && connection.None? && !isHost && roomCode.None?
      ensures hostName.None? && guestName.None? && hostGender.None? && guestGender.None? && hostPlayerType.None?
      ensures sent == [] && events == [] && dialsOnPeerOpen == [] && dialing == []
    {
      peer, connection := None, None;
      isHost, roomCode := false, None;
      hostName, guestName, hostGender, guestGender, hostPlayerType := None, None, None, None, None;
      sent, events := [], [];
      dialsOnPeerOpen, dialing := [], [];
    }

    /** A fresh peer with the given identity (a random one when none), not
        open yet and with no listener of an earlier peer. */
    method InitializePeerWithId(id: Text)
      modifies this`peer, this`dialsOnPeerOpen
      ensures Valid()
      ensures peer == Some(Peer(id, false, false)) && dialsOnPeerOpen == []
      ensures Answers(id)
    {
      peer := Some(Peer(id, false, false));
      dialsOnPeerOpen := [];
    }

    /** initializePeer: a fresh peer with a random identity. */
    method InitializePeer()
      modifies this`peer, this`dialsOnPeerOpen
      ensures Valid()
      ensures peer == Some(Peer(None, false, false)) && dialsOnPeerOpen == []
    {
      InitializePeerWithId(None);
    }

    /** Becomes the host of a new room; the peer is left as it is.
        `draw` is Math.floor(Math.random() * 9000). */
    method CreateRoom(name: Text, gender: Text, playerType: Text, draw: nat) returns (code: string)
      requires draw < 9000
      modifies this`isHost, this`hostName, this`hostGender, this`hostPlayerType, this`roomCode
      ensures IsRoomCode(code) && 1000 <= RoomNumber(code) <= 9999 && code == RoomCode(1000 + draw)
      ensures isHost && hostName == name && hostGender == gender && hostPlayerType == playerType
      ensures roomCode == Some(code)
    {
      isHost := true;
      hostName := name;
      hostGender := gender;
      hostPlayerType := playerType;
      code := RoomCode(1000 + draw);
      roomCode := Some(code);
    }

    /** createRoom as the room code is meant to work, and as connection.js
        does it: the peer is re-created under the room code, so a guest
        dialling the code reaches this host. */
    method CreateRoomAnsweringCode(name: Text, gender: Text, playerType: Text, draw: nat) returns (code: string)
      requires draw < 9000
      modifies this`isHost, this`hostName, this`hostGender, this`hostPlayerType, this`roomCode
      modifies this`peer, this`dialsOnPeerOpen
      ensures Valid()
      ensures IsRoomCode(code) && 1000 <= RoomNumber(code) <= 9999 && code == RoomCode(1000 + draw)
      ensures isHost && hostName == name && hostGender == gender && hostPlayerType == playerType
      ensures roomCode == Some(code) && Answers(roomCode)
      ensures peer == Some(Peer(Some(code), false, false)) && dialsOnPeerOpen == []
    {
      code := CreateRoom(name, gender, playerType, draw);
      InitializePeerWithId(Some(code));
    }

    /** Becomes the guest of room `room`: dials at once when the peer is
        open, or leaves the dial for the peer's 'open'. Without a peer,
        reading `this.peer.open` throws and nothing is dialled. */
    method JoinRoom(room: Text, name: Text, gender: Text) returns (threw: bool)
      requires Valid()
      modifies this`isHost, this`roomCode, this`guestName, this`guestGender, this`dialsOnPeerOpen, this`dialing
      ensures Valid()
      ensures !isHost && roomCode == room && guestName == name && guestGender == gender
      ensures threw <==> peer.None?
      ensures var dial := Dial(room, name, gender);
        && (peer.Some? && peer.value.open ==> dialing == old(dialing) + [dial] && dialsOnPeerOpen == old(dialsOnPeerOpen))
        && (peer.Some? && !peer.value.open ==> dialing == old(dialing) && dialsOnPeerOpen == old(dialsOnPeerOpen) + [dial])
        && (peer.None? ==> dialing == old(dialing) && dialsOnPeerOpen == old(dialsOnPeerOpen))
    {
      isHost := false;
      roomCode := room;
      guestName := name;
      guestGender := gender;
      if peer.None? {
        threw := true;
        return;
      }
      threw := false;
      if peer.value.open {
        dialing := dialing + [Dial(room, name, gender)];
      } else {
        dialsOnPeerOpen := dialsOnPeerOpen + [Dial(room, name, gender)];
      }
    }

    /** The peer's 'open' event: every dial left waiting goes out. */
    method OnPeerOpen()
      requires Valid()
      requires peer.Some? && !peer.value.open && !peer.value.destroyed
      modifies this`peer, this`dialsOnPeerOpen, this`dialing
      ensures Valid()
      ensures peer == Some(old(peer.value).(open := true))
      ensures dialing == old(dialing) + old(dialsOnPeerOpen) && dialsOnPeerOpen == []
    {
      peer := Some(peer.value.(open := true));
      dialing := dialing + dialsOnPeerOpen;
      dialsOnPeerOpen := [];
    }

    /** handleIncomingConnection: the guest's connection replaces whatever
        connection there was. */
    method OnIncomingConnection()
      requires peer.Some? && peer.value.open && !peer.value.destroyed
      modifies this`connection
      ensures connection == Some(Link(Incoming, false))
    {
      connection := Some(Link(Incoming, false));
    }

    /** The 'open' event of the guest's incoming connection: the host
        announces itself and reports the connection. */
    method OnIncomingOpen()
      requires connection == Some(Link(Incoming, false))
      modifies this`connection, this`sent, this`events
      ensures connection == Some(Link(Incoming, true))
      ensures sent == old(sent) + [HostInfo(hostName, hostGender, hostPlayerType)]
      ensures events == old(events) + [Established(true, hostName, None)]
    {
      connection := Some(Link(Incoming, true));
      var _ := SendData(HostInfo(hostName, hostGender, hostPlayerType));
      events := events + [Established(true, hostName, None)];
    }

    /** The 'open' event of the `i`-th dialled connection: it becomes the
        current connection and the guest announces itself with what joinRoom
        captured. */
    method OnDialOpen(i: nat)
      requires i < |dialing|
      modifies this`connection, this`dialing, this`sent, this`events
      ensures var dial := old(dialing[i]);
        && connection == Some(Link(Dialed(dial), true))
        && dialing == old(dialing[..i] + dialing[i + 1..])
        && sent == old(sent) + [GuestInfo(dial.name, dial.gender)]
        && events == old(events) + [Established(false, None, dial.name)]
    {
      var dial := dialing[i];
      dialing := dialing[..i] + dialing[i + 1..];
      connection := Some(Link(Dialed(dial), true));
      var _ := SendData(GuestInfo(dial.name, dial.gender));
      events := events + [Established(false, None, dial.name)];
    }

    /** The 'error' event of the `i`-th dialled connection, which will not
        open: joinRoom's handler reports the room as unreachable, then the
        common handler reports the error itself. */
    method OnDialError(i: nat)
      requires i < |dialing|
      modifies this`dialing, this`events
      ensures dialing == old(dialing[..i] + dialing[i + 1..])
      ensures events == old(events) + [ConnectionError(DialFailed(old(dialing[i].room))), ConnectionError(LinkFault)]
    {
      var dial := dialing[i];
      dialing := dialing[..i] + dialing[i + 1..];
      events := events + [ConnectionError(DialFailed(dial.room)), ConnectionError(LinkFault)];
    }

    /** The data handler: guest-info updates the guest fields on the host
        only, host-info the host fields on the guest only, and every envelope,
        pings and pongs included, then reaches onDataReceived unchanged. */
    method OnData(m: Message)
      modifies this`events
      modifies this`guestName, this`guestGender, this`hostName, this`hostGender, this`hostPlayerType
      ensures events == old(events) + [DataReceived(m)]
      ensures if m.GuestInfo? && isHost
        then guestName == m.name && guestGender == m.gender && PartnerName() == m.name && PartnerGender() == m.gender
        else guestName == old(guestName) && guestGender == old(guestGender)
      ensures if m.HostInfo? && !isHost
        then && hostName == m.name && hostGender == m.gender && hostPlayerType == m.playerType
             && PartnerName() == m.name && PartnerGender() == m.gender
        else hostName == old(hostName) && hostGender == old(hostGender) && hostPlayerType == old(hostPlayerType)
    {
      match m {
        case GuestInfo(name, gender) =>
          if isHost {
            guestName := name;
            guestGender := gender;
          }
        case HostInfo(name, gender, playerType) =>
          if !isHost {
            hostName := name;
            hostGender := gender;
            hostPlayerType := playerType;
          }
        case _ =>
      }
      events := events + [DataReceived(m)];
    }

    /** The current connection's 'close' event: always reported. */
    method OnConnectionClose()
      modifies this`connection, this`events
      ensures connection == if old(connection).Some? then Some(old(connection.value).(open := false)) else None
      ensures events == old(events) + [ConnectionClosed]
    {
      if connection.Some? {
        connection := Some(connection.value.(open := false));
      }
      events := events + [ConnectionClosed];
    }

    /** The current connection's 'error' event; a connection dialled by
        joinRoom also carries joinRoom's handler, which runs first. */
    method OnConnectionError()
      modifies this`events
      ensures var dialed := connection.Some? && connection.value.origin.Dialed?;
        events == old(events)
          + (if dialed then [ConnectionError(DialFailed(connection.value.origin.dial.room))] else [])
          + [ConnectionError(LinkFault)]
    {
      if connection.Some? && connection.value.origin.Dialed? {
        events := events + [ConnectionError(DialFailed(connection.value.origin.dial.room))];
      }
      events := events + [ConnectionError(LinkFault)];
    }

    /** The peer's 'error' event. */
    method OnPeerError()
      modifies this`events
      ensures events == old(events) + [ConnectionError(PeerFault)]
    {
      events := events + [ConnectionError(PeerFault)];
    }

    /** sendData: transmits only on an open connection, and says whether it did. */
    method SendData(m: Message) returns (ok: bool)
      modifies this`sent
      ensures ok <==> IsConnected()
      ensures sent == old(sent) + if ok then [m] else []
    {
      if connection.Some? && connection.value.open {
        sent := sent + [m];
        ok := true;
      } else {
        ok := false;
      }
    }

    /** sendGameUpdate and sendGameResults: the payload, opaque here, in a
        'game-update' or 'game-results' envelope. */
    method SendGameUpdate(gameData: string) returns (ok: bool)
      modifies this`sent
      ensures ok <==> IsConnected()
      ensures sent == old(sent) + if ok then [Other("game-update", gameData)] else []
    {
      ok := SendData(Other("game-update", gameData));
    }

    method SendGameResults(results: string) returns (ok: bool)
      modifies this`sent
      ensures ok <==> IsConnected()
      ensures sent == old(sent) + if ok then [Other("game-results", results)] else []
    {
      ok := SendData(Other("game-results", results));
    }

    /** closeConnection: closes the connection and destroys the peer but
        keeps both references; afterwards nothing can be sent. */
    method CloseConnection()
      requires Valid()
      modifies this`connection, this`peer
      ensures Valid() && !IsConnected()
      ensures connection == if old(connection).Some? then Some(old(connection.value).(open := false)) else None
      ensures peer == if old(peer).Some? then Some(old(peer.value).(destroyed := true)) else None
    {
      if connection.Some? {
        connection := Some(connection.value.(open := false));
      }
      if peer.Some? {
        peer := Some(peer.value.(destroyed := true));
      }
    }

    function PartnerName(): (name: Text)
      reads this
      ensures isHost ==> name == guestName
      ensures !isHost ==> name == hostName
    {
      if isHost then guestName else hostName
    }

    function PartnerGender(): (gender: Text)
      reads this
      ensures isHost ==> gender == guestGender
      ensures !isHost ==> gender == hostGender
    {
      if isHost then guestGender else hostGender
    }
  }

  // ---------------------------------------------------------------------------
  // Scenarios

  /** As written: app.js creates the peer with a random identity at start-up
      and createRoom leaves it alone, so the peer never answers to the room
      code that the guest is told to dial. */
  method HostBehindRandomId(draw: nat) returns (host: GameConnection, code: string)
    requires draw < 9000
    ensures host.roomCode == Some(code) && IsRoomCode(code)
    ensures host.peer == Some(Peer(None, false, false))
    ensures !host.Answers(host.roomCode)
  {
    host := new GameConnection();
    host.InitializePeer();
    code := host.CreateRoom(Some("Alice"), Some("f"), Some("real"), draw);
  }

  /** A host whose room has been created with the corrected createRoom and
      whose guest has connected. */
  method OpenedHost(name: Text, gender: Text, playerType: Text, draw: nat) returns (host: GameConnection, code: string)
    requires draw < 9000
    ensures fresh(host) && host.Valid() && host.IsConnected() && host.isHost && IsRoomCode(code)
    ensures host.roomCode == Some(code) && host.hostName == name && host.hostGender == gender
    ensures host.hostPlayerType == playerType && host.guestName.None? && host.guestGender.None?
    ensures host.peer == Some(Peer(Some(code), true, false)) && host.Answers(Some(code))
    ensures host.sent == [HostInfo(name, gender, playerType)]
    ensures host.events == [Established(true, name, None)]
  {
    host := new GameConnection();
    host.InitializePeer();
    code := host.CreateRoomAnsweringCode(name, gender, playerType, draw);
    host.OnPeerOpen();
    host.OnIncomingConnection();
    host.OnIncomingOpen();
  }

  /** A guest that called joinRoom before its peer opened and whose dial
      has then opened. */
  method OpenedGuest(room: Text, name: Text, gender: Text) returns (guest: GameConnection)
    ensures fresh(guest) && guest.Valid() && guest.IsConnected() && !guest.isHost
    ensures guest.roomCode == room && guest.guestName == name && guest.guestGender == gender
    ensures guest.hostName.None? && guest.hostGender.None? && guest.hostPlayerType.None?
    ensures guest.dialing == [] && guest.dialsOnPeerOpen == []
    ensures guest.sent == [GuestInfo(name, gender)]
    ensures guest.events == [Established(false, None, name)]
  {
    guest := new GameConnection();
    guest.InitializePeer();
    var threw := guest.JoinRoom(room, name, gender);
    guest.OnPeerOpen();
    guest.OnDialOpen(0);
  }

  /** Alice hosts with the corrected createRoom, so her peer answers to the
      room code Bob dials; after the announcements each knows the other. A
      keep-alive ping from a newer client reaches the application unanswered,
      and a dropped link is reported at once, with no attempt to reconnect. */
  method PairingThenDrop(draw: nat) returns (host: GameConnection, guest: GameConnection)
    requires draw < 9000
    ensures host.Answers(guest.roomCode)
    ensures host.PartnerName() == Some("Bob") && host.PartnerGender() == Some("m")
    ensures guest.PartnerName() == Some("Alice") && guest.PartnerGender() == Some("f")
    ensures guest.sent == [GuestInfo(Some("Bob"), Some("m"))]
    ensures guest.events == [
      Established(false, None, Some("Bob")),
      DataReceived(HostInfo(Some("Alice"), Some("f"), Some("real"))),
      DataReceived(Ping(7)),
      ConnectionClosed]
    ensures !guest.IsConnected()
  {
    var code;
    host, code := OpenedHost(Some("Alice"), Some("f"), Some("real"), draw);
    guest := OpenedGuest(Some(code), Some("Bob"), Some("m"));
    host.OnData(guest.sent[0]);
    guest.OnData(host.sent[0]);
    guest.OnData(Ping(7));
    guest.OnConnectionClose();
  }
}
