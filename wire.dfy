/** Values shared by both variants of the connection manager: the envelopes
    exchanged over a data connection, the callback events raised towards the
    application, the abstract PeerJS handles, and the "LOVE-####" room codes. */
module Wire {

  datatype Option<+T> = None | Some(value: T)

  /** A JavaScript string field that may still hold `null`. */
  type Text = Option<string>

  /** An envelope, by its `type` tag. */
  datatype Message =
    | GuestInfo(name: Text, gender: Text)                   // type 'guest-info'
    | HostInfo(name: Text, gender: Text, playerType: Text)  // type 'host-info'
    | Ping(timestamp: int)                                  // type 'ping'
    | Pong(timestamp: int)                                  // type 'pong'
      /** Any envelope whose type is none of the four above: 'game-update',
          'game-results', 'play-again' or a type nobody knows. */
    | Other(tag: string, body: string)

  /** Why `onConnectionError` was called. */
  datatype Fault =
    | PeerFault               // the peer object reported an error
    | DialFailed(room: Text)  // the connection opened by joinRoom failed
    | JoinTimeout             // no open connection when the join timeout fired
    | LinkFault               // the data connection reported an error

  /** One invocation of an application callback. */
  datatype Event =
    | Established(isHost: bool, hostName: Text, guestName: Text)
    | DataReceived(msg: Message)
    | ConnectionClosed
    | ConnectionError(fault: Fault)
    | Reconnecting(attempt: nat, max: nat)
    | Reconnected
    | ReconnectFailed

  /** The PeerJS peer, reduced to the state the manager looks at. */
  datatype Peer = Peer(id: Text, open: bool, destroyed: bool)

  /** What joinRoom's connectToPeer closure captured: the room to dial and the
      guest's name and gender to announce once the connection opens. */
  datatype Dial = Dial(room: Text, name: Text, gender: Text)

  /** How the current data connection came to be: accepted from a guest, or
      dialled by joinRoom. */
  datatype Origin = Incoming | Dialed(dial: Dial)

  /** The current PeerJS data connection. */
  datatype Link = Link(origin: Origin, open: bool)

  // ---------------------------------------------------------------------------
  // Room codes: 'LOVE-' followed by the decimal form of a number.

  const RoomPrefix: string := "LOVE-"

  predicate IsDigit(c: char) {
    '0' <= c <= '9'
  }

  predicate AllDigits(s: string) {
    forall i :: 0 <= i < |s| ==> IsDigit(s[i])
  }

  function DigitChar(d: nat): (c: char)
    requires d < 10
    ensures IsDigit(c) && (c == '0' <==> d == 0)
  {
    ('0' as int + d) as char
  }

  function Pow10(k: nat): (r: nat)
    ensures r >= 1
  {
    if k == 0 then 1 else 10 * Pow10(k - 1)
  }

  /** The decimal form of `n`, as JavaScript's number-to-string gives it:
      digits only, and no leading zero unless `n` is zero itself. */
  function DecimalString(n: nat): (s: string)
    ensures |s| >= 1 && AllDigits(s)
    ensures s[0] == '0' <==> n == 0
  {
    if n < 10 then [DigitChar(n)] else DecimalString(n / 10) + [DigitChar(n % 10)]
  }

  /** The number a string of decimal digits stands for. */
  function DecimalValue(s: string): nat
    requires AllDigits(s)
  {
    if s == [] then 0 else DecimalValue(s[..|s| - 1]) * 10 + (s[|s| - 1] as int - '0' as int)
  }

  lemma {:induction false} DecimalValueOfString(n: nat)
    ensures DecimalValue(DecimalString(n)) == n
  {
    if n >= 10 {
      var s := DecimalString(n);
      assert s[..|s| - 1] == DecimalString(n / 10);
      DecimalValueOfString(n / 10);
    }
  }

  lemma {:induction false} DecimalValueBounds(s: string)
    requires |s| >= 1 && AllDigits(s) && s[0] != '0'
    ensures Pow10(|s| - 1) <= DecimalValue(s) < Pow10(|s|)
  {
    if |s| > 1 {
      var p := s[..|s| - 1];
      assert p[0] == s[0];
      DecimalValueBounds(p);
    }
  }

  lemma {:induction false} DecimalStringOfValue(s: string)
    requires |s| >= 1 && AllDigits(s) && (s[0] != '0' || |s| == 1)
    ensures DecimalString(DecimalValue(s)) == s
  {
    if |s| > 1 {
      var p := s[..|s| - 1];
      assert p[0] == s[0];
      DecimalValueBounds(p);
      DecimalStringOfValue(p);
      var v := DecimalValue(s);
      assert v / 10 == DecimalValue(p) && v % 10 == s[|s| - 1] as int - '0' as int;
      assert s == p + [s[|s| - 1]];
    }
  }

  lemma FourDigits(n: nat)
    requires 1000 <= n <= 9999
    ensures |DecimalString(n)| == 4
  {
    assert |DecimalString(n / 1000)| == 1;
    assert DecimalString(n / 100) == DecimalString(n / 1000) + [DigitChar(n / 100 % 10)];
    assert DecimalString(n / 10) == DecimalString(n / 100) + [DigitChar(n / 10 % 10)];
  }

  /** A well-formed room code: the prefix and four decimal digits, the first
      of them non-zero. */
  predicate IsRoomCode(s: string) {
    |s| == 9 && s[..5] == RoomPrefix && AllDigits(s[5..]) && s[5] != '0'
  }

  /** The number that a well-formed room code carries. */
  function RoomNumber(s: string): nat
    requires IsRoomCode(s)
  {
    DecimalValue(s[5..])
  }

  /** The code `'LOVE-' + n` that createRoom builds from `n` in [1000, 9999]. */
  function RoomCode(n: nat): (code: string)
    requires 1000 <= n <= 9999
    ensures IsRoomCode(code) && RoomNumber(code) == n
  {
    FourDigits(n);
    DecimalValueOfString(n);
    var code := RoomPrefix + DecimalString(n);
    assert code[5..] == DecimalString(n);
    code
  }

  /** Conversely, every well-formed room code is the code of a number in
      [1000, 9999]: the codes createRoom can return are exactly those. */
  lemma RoomCodeOfNumber(s: string)
    requires IsRoomCode(s)
    ensures 1000 <= RoomNumber(s) <= 9999 && RoomCode(RoomNumber(s)) == s
  {
    var digits := s[5..];
    assert |digits| == 4 && digits[0] == s[5];
    assert Pow10(3) == 1000 && Pow10(4) == 10000;
    DecimalValueBounds(digits);
    DecimalStringOfValue(digits);
    assert s == s[..5] + digits;
  }
}
