/** A session's memory as the program lays it out: four buffers of fixed size, each with its length and, where it is
    drained, its offset (src/server/include/server.h). `Value` is the session of the transition system it stands for. */
module Sessions {
  import opened Basics
  import opened Socks5
  import opened Proxy
  import opened Wire

  /** Store `bytes` from position `at` on, as recv and the reply builders do. */
  method StoreBytes(buffer: array<byte>, at: nat, bytes: seq<byte>)
    requires at + |bytes| <= buffer.Length
    modifies buffer
    ensures buffer[..at + |bytes|] == old(buffer[..at]) + bytes
    ensures buffer[at + |bytes|..] == old(buffer[at + |bytes|..])
  {
    for i := 0 to |bytes|
      invariant buffer[..at + i] == old(buffer[..at]) + bytes[..i]
      invariant buffer[at + i..] == old(buffer[at + i..])
    {
      assert buffer[at + i + 1..] == buffer[at + i..][1..] && old(buffer[at + i + 1..]) == old(buffer[at + i..])[1..];
      buffer[at + i] := bytes[i];
      assert buffer[..at + i + 1] == buffer[..at + i] + [bytes[i]];
      assert bytes[..i + 1] == bytes[..i] + [bytes[i]];
    }
    assert bytes[..|bytes|] == bytes;
  }

  /** A session whose request is taken up. */
  ghost function Destined(s: Session, request: ConnectRequest): Session {
    s.(lastError := 0, port := request.port, accessLogged := false,
       destination := if request.atyp == ATYP_DOMAIN then Named(CString(request.address)) else Numeric(request.address))
  }

  /** client_state_t */
  class ClientState {
    const readBuffer: array<byte>
    const writeBuffer: array<byte>
    const upBuffer: array<byte>
    const downBuffer: array<byte>
    var readLen: nat
    var writeLen: nat
    var writeOff: nat
    var upLen: nat
    var upOff: nat
    var downLen: nat
    var downOff: nat
    var clientFd: Option<Fd>
    var targetFd: Option<Fd>
    var addresses: Option<Jid>
    var cursor: seq<Address>
    var job: Option<Jid>
    var lastError: int
    var username: seq<byte>
    var destination: Destination
    var port: nat
    var accessLogged: bool
    var stage: Stage
    var relayStarted: bool

    ghost function Footprint(): set<object> {
      {this, readBuffer, writeBuffer, upBuffer, downBuffer}
    }

    /** Lengths and offsets stay within the buffers, and no buffer is another. */
    ghost predicate Valid()
      reads this
    {
      && readBuffer.Length == BUFFER_SIZE && writeBuffer.Length == BUFFER_SIZE
      && upBuffer.Length == BUFFER_SIZE && downBuffer.Length == BUFFER_SIZE
      && readBuffer != writeBuffer && readBuffer != upBuffer && readBuffer != downBuffer
      && writeBuffer != upBuffer && writeBuffer != downBuffer && upBuffer != downBuffer
      && readLen <= BUFFER_SIZE && writeOff <= writeLen <= BUFFER_SIZE
      && upOff <= upLen <= BUFFER_SIZE && downOff <= downLen <= BUFFER_SIZE
    }

    /** What was read and not yet decided on. */
    ghost function Input(): seq<byte>
      requires readLen <= readBuffer.Length
      reads this`readLen, readBuffer
    {
      readBuffer[..readLen]
    }

    /** The reply being sent. */
    ghost function Reply(): seq<byte>
      requires writeLen <= writeBuffer.Length
      reads this`writeLen, writeBuffer
    {
      writeBuffer[..writeLen]
    }

    /** What is relayed from client to target. */
    ghost function Up(): seq<byte>
      requires upLen <= upBuffer.Length
      reads this`upLen, upBuffer
    {
      upBuffer[..upLen]
    }

    /** What is relayed from target to client. */
    ghost function Down(): seq<byte>
      requires downLen <= downBuffer.Length
      reads this`downLen, downBuffer
    {
      downBuffer[..downLen]
    }

    ghost function Value(): Session
      requires Valid()
      reads this, readBuffer, writeBuffer, upBuffer, downBuffer
    {
      Session(Input(), Reply(), writeOff, Up(), upOff, Down(), downOff,
              clientFd, targetFd, addresses, cursor, job, lastError, username, destination, port, accessLogged, stage, relayStarted)
    }

    /** calloc, and what accept_connection stores. */
    constructor (fd: Fd)
      ensures Valid() && Value() == Proxy.Fresh(fd) && fresh(Footprint())
    {
      readBuffer, writeBuffer := new byte[BUFFER_SIZE](_ => 0), new byte[BUFFER_SIZE](_ => 0);
      upBuffer, downBuffer := new byte[BUFFER_SIZE](_ => 0), new byte[BUFFER_SIZE](_ => 0);
      readLen, writeLen, writeOff, upLen, upOff, downLen, downOff := 0, 0, 0, 0, 0, 0, 0;
      clientFd, targetFd, addresses, cursor, job := Some(fd), None, None, [], None;
      lastError, username, destination, port, accessLogged := 0, ANONYMOUS, NoDestination, 0, false;
      stage, relayStarted := Greeting, false;
    }

    /** recv during the negotiation: bytes land behind those held. */
    method Receive(bytes: seq<byte>)
      requires Valid() && readLen + |bytes| <= BUFFER_SIZE
      modifies this, readBuffer
      ensures Valid() && Value() == old(Value()).(readBuf := old(Value()).readBuf + bytes)
    {
      StoreBytes(readBuffer, readLen, bytes);
      readLen := readLen + |bytes|;
    }

    /** The socks5_prepare_ functions: a reply replaces what the write buffer held. The stage that follows is set. */
    method Prepare(reply: seq<byte>, next: Stage)
      requires Valid() && |reply| <= BUFFER_SIZE
      modifies this, writeBuffer
      ensures Valid() && Value() == old(Value()).(writeBuf := reply, writeOff := 0, stage := next)
    {
      StoreBytes(writeBuffer, 0, reply);
      writeLen, writeOff, stage := |reply|, 0, next;
    }

    /** The same, dropping what was read. */
    method Respond(reply: seq<byte>, next: Stage)
      requires Valid() && |reply| <= BUFFER_SIZE
      modifies this, writeBuffer
      ensures Valid() && Value() == Answering(old(Value()), reply, next)
    {
      Prepare(reply, next);
      readLen := 0;
      assert Input() == [];
    }

    /** The send loop for replies (client_write, lines 107-126). */
    method FlushReply(sends: seq<Send>) returns (end: Flushed)
      requires Valid()
      modifies `writeOff
      ensures Valid()
      ensures var s := old(Value()); var f := Flush(s.writeBuf, s.writeOff, sends);
              Value() == s.(writeOff := f.off) && end == f.end
      ensures writeOff == Min(writeLen, old(writeOff) + Accepted(sends))
      ensures end == if old(writeOff) + Accepted(sends) >= writeLen then Drained else if Lost(sends) then Broken else Blocked
    {
      hide Accepted, Lost;
      ghost var reply := Reply();
      FlushMoves(reply, writeOff, sends);
      var k := 0;
      while writeOff < writeLen
        invariant writeOff <= writeLen && k <= |sends| && Reply() == reply
        invariant Flush(reply, writeOff, sends[k..]) == Flush(reply, old(writeOff), sends)
        decreases |sends| - k
      {
        if k == |sends| || sends[k].SendBlocked? {
          return Blocked;
        }
        if sends[k].SendFailed? || sends[k].n == 0 {
          return Broken;
        }
        writeOff := writeOff + Min(sends[k].n, writeLen - writeOff);
        assert sends[k..][1..] == sends[k + 1..];
        k := k + 1;
      }
      return Drained;
    }

    /** client_close forgets both descriptors, and returns the target's. */
    method Unlink(fd: Fd) returns (target: Option<Fd>)
      requires Valid()
      modifies `clientFd, `targetFd
      ensures Valid() && target == old(Value()).targetFd
      ensures var s := old(Value()); var s1 := if s.clientFd == Some(fd) then s.(clientFd := None) else s;
              Value() == s1.(targetFd := None)
    {
      if clientFd == Some(fd) {
        clientFd := None;
      }
      target := targetFd;
      targetFd := None;
    }

    /** target_connection_begin remembers where the request goes. */
    method TakeUp(request: ConnectRequest)
      requires Valid()
      modifies `lastError, `port, `accessLogged, `destination
      ensures Valid() && Value() == Destined(old(Value()), request)
    {
      hide CString;
      lastError, port, accessLogged := 0, request.port, false;
      if request.atyp == ATYP_DOMAIN {
        destination := Named(CString(request.address));
      } else {
        destination := Numeric(request.address);
      }
    }

    /** recv from the client in the relay. */
    method LoadUp(bytes: seq<byte>)
      requires Valid() && |bytes| <= BUFFER_SIZE
      modifies this, upBuffer
      ensures Valid() && Value() == old(Value()).(c2t := bytes, c2tOff := 0)
    {
      StoreBytes(upBuffer, 0, bytes);
      upLen, upOff := |bytes|, 0;
    }

    /** recv from the target in the relay. */
    method LoadDown(bytes: seq<byte>)
      requires Valid() && |bytes| <= BUFFER_SIZE
      modifies this, downBuffer
      ensures Valid() && Value() == old(Value()).(t2c := bytes, t2cOff := 0)
    {
      StoreBytes(downBuffer, 0, bytes);
      downLen, downOff := |bytes|, 0;
    }
  }

  // ---------------------------------------------------------------- reading the buffer in place

  /** socks5_client_offers_no_auth and socks5_client_offers_username_password: the scan of the offered methods. */
  method Offers(buffer: array<byte>, from: nat, count: nat, wanted: byte) returns (offered: bool)
    requires from + count <= buffer.Length
    ensures offered == (wanted in buffer[from..from + count])
  {
    for i := 0 to count
      invariant wanted !in buffer[from..from + i]
    {
      if buffer[from + i] == wanted {
        return true;
      }
    }
    return false;
  }

  /** client_read at the greeting, lines 234-283: the method the client is told, if the message is complete. */
  method GreetingParse(buffer: array<byte>, len: nat, users: UserMap) returns (r: GreetingOutcome)
    requires len <= buffer.Length
    ensures r == DecideGreeting(buffer[..len], users)
  {
    if len < 2 {
      return GreetingWait;
    }
    var version, nmethods := buffer[0], buffer[1] as int;
    assert buffer[..len][0] == version && At(buffer[..len], 1) == nmethods;
    if version != VERSION || len < 2 + nmethods {
      return if version == VERSION then GreetingWait else GreetingDrop;
    }
    var acceptsPassword := Offers(buffer, 2, nmethods, METHOD_USERNAME_PASSWORD);
    var acceptsNoAuth := Offers(buffer, 2, nmethods, METHOD_NO_AUTH);
    assert buffer[..len][2..2 + nmethods] == buffer[2..2 + nmethods];
    if acceptsPassword {
      return GreetingChoose(METHOD_USERNAME_PASSWORD);
    }
    if users == map[] && acceptsNoAuth {
      return GreetingChoose(METHOD_NO_AUTH);
    }
    return GreetingChoose(METHOD_NO_ACCEPTABLE);
  }

  /** auth_parse_request: whether the message is decided, and the name to store if it is accepted. */
  method AuthParse(buffer: array<byte>, len: nat, users: UserMap) returns (r: AuthOutcome)
    requires len <= buffer.Length
    ensures r == DecideAuth(buffer[..len], users)
  {
    ghost var b := buffer[..len];
    if len < 2 {
      return AuthWait;
    }
    assert b[0] == buffer[0] && b[1] == buffer[1];
    if buffer[0] != AUTH_VERSION {
      return AuthReject;
    }
    var passwordLenIndex := 2 + buffer[1] as int;
    if len < passwordLenIndex + 1 {
      return AuthWait;
    }
    assert b[passwordLenIndex] == buffer[passwordLenIndex];
    var expectedLen := passwordLenIndex + 1 + buffer[passwordLenIndex] as int;
    if len < expectedLen {
      return AuthWait;
    }
    var name, pass := buffer[2..passwordLenIndex], buffer[passwordLenIndex + 1..expectedLen];
    assert b[2..passwordLenIndex] == name && b[passwordLenIndex + 1..expectedLen] == pass;
    return if CredentialsValid(users, name, pass) then AuthAccept(name) else AuthReject;
  }

  /** socks5_request_is_incomplete */
  method RequestIsIncomplete(buffer: array<byte>, len: nat) returns (incomplete: bool)
    requires len <= buffer.Length
    ensures incomplete == IsIncomplete(buffer[..len])
  {
    if len < 4 {
      return true;
    }
    assert buffer[..len][3] == buffer[3];
    if buffer[3] == ATYP_IPV4 {
      return len < 10;
    }
    if buffer[3] == ATYP_IPV6 {
      return len < 22;
    }
    if buffer[3] == ATYP_DOMAIN {
      if len < 5 {
        return true;
      }
      assert buffer[..len][4] == buffer[4];
      return len < 5 + buffer[4] as int + 2;
    }
    return false;
  }

  /** socks5_request_reply_for */
  method RequestReplyFor(buffer: array<byte>, len: nat) returns (reply: byte)
    requires len <= buffer.Length
    ensures reply == ReplyFor(buffer[..len])
  {
    hide IsIncomplete;
    if len < 4 || buffer[0] != VERSION || buffer[2] != 0 {
      return REPLY_GENERAL_FAILURE;
    }
    if buffer[1] != CMD_CONNECT {
      return REPLY_COMMAND_NOT_SUPPORTED;
    }
    if buffer[3] != ATYP_IPV4 && buffer[3] != ATYP_DOMAIN && buffer[3] != ATYP_IPV6 {
      return REPLY_ADDRESS_TYPE_NOT_SUPPORTED;
    }
    var incomplete := RequestIsIncomplete(buffer, len);
    return if incomplete then REPLY_GENERAL_FAILURE else REPLY_SUCCESS;
  }

  /** socks5_parse_connect_request, given that the request is complete. */
  method ParseRequest(buffer: array<byte>, len: nat) returns (request: Option<ConnectRequest>)
    requires len <= buffer.Length
    ensures request == ParseConnect(buffer[..len])
  {
    ghost var b := buffer[..len];
    var reply := RequestReplyFor(buffer, len);
    if reply != REPLY_SUCCESS {
      return None;
    }
    if buffer[3] == ATYP_IPV4 {
      assert b[4..8] == buffer[4..8];
      return Some(ConnectRequest(ATYP_IPV4, buffer[4..8], buffer[8] as int * 256 + buffer[9] as int));
    }
    if buffer[3] == ATYP_IPV6 {
      assert b[4..20] == buffer[4..20];
      return Some(ConnectRequest(ATYP_IPV6, buffer[4..20], buffer[20] as int * 256 + buffer[21] as int));
    }
    var portIndex := 5 + buffer[4] as int;
    if buffer[4] == 0 {
      return None;
    }
    assert b[4] == buffer[4] && b[5..portIndex] == buffer[5..portIndex];
    return Some(ConnectRequest(ATYP_DOMAIN, buffer[5..portIndex], buffer[portIndex] as int * 256 + buffer[portIndex + 1] as int));
  }
}
