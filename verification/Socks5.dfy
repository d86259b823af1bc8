/** The SOCKS5 wire format: what a prefix of the client's bytes decides, and the replies
    (src/server/socks5.c, src/server/auth.c and the greeting code of src/server/client_session.c). */
module Socks5 {
  import opened Basics

  const VERSION: byte := 0x05
  const METHOD_NO_AUTH: byte := 0x00
  const METHOD_USERNAME_PASSWORD: byte := 0x02
  const METHOD_NO_ACCEPTABLE: byte := 0xFF
  const CMD_CONNECT: byte := 0x01
  const ATYP_IPV4: byte := 0x01
  const ATYP_DOMAIN: byte := 0x03
  const ATYP_IPV6: byte := 0x04
  const REPLY_SUCCESS: byte := 0x00
  const REPLY_GENERAL_FAILURE: byte := 0x01
  const REPLY_NETWORK_UNREACHABLE: byte := 0x03
  const REPLY_HOST_UNREACHABLE: byte := 0x04
  const REPLY_CONNECTION_REFUSED: byte := 0x05
  const REPLY_TTL_EXPIRED: byte := 0x06
  const REPLY_COMMAND_NOT_SUPPORTED: byte := 0x07
  const REPLY_ADDRESS_TYPE_NOT_SUPPORTED: byte := 0x08
  const AUTH_VERSION: byte := 0x01
  const AUTH_SUCCESS: byte := 0x00
  const AUTH_FAILURE: byte := 0x01

  /** Configured users: name to password. */
  type UserMap = map<seq<byte>, seq<byte>>

  // ---------------------------------------------------------------- greeting

  datatype GreetingOutcome = GreetingWait | GreetingDrop | GreetingChoose(chosen: byte)

  function DecideGreeting(buffer: seq<byte>, users: UserMap): GreetingOutcome {
    if |buffer| < 2 then GreetingWait
    else if buffer[0] != VERSION then GreetingDrop
    else if |buffer| < 2 + At(buffer, 1) then GreetingWait
    else
      var methods := buffer[2..2 + At(buffer, 1)];
      if METHOD_USERNAME_PASSWORD in methods then GreetingChoose(METHOD_USERNAME_PASSWORD)
      else if users == map[] && METHOD_NO_AUTH in methods then GreetingChoose(METHOD_NO_AUTH)
      else GreetingChoose(METHOD_NO_ACCEPTABLE)
  }

  // ---------------------------------------------------------------- username and password

  datatype AuthOutcome = AuthWait | AuthReject | AuthAccept(user: seq<byte>)

  predicate CredentialsValid(users: UserMap, user: seq<byte>, pass: seq<byte>) {
    user in users && users[user] == pass
  }

  function DecideAuth(buffer: seq<byte>, users: UserMap): AuthOutcome {
    if |buffer| < 2 then AuthWait
    else if buffer[0] != AUTH_VERSION then AuthReject
    else
      var passwordLenIndex := 2 + At(buffer, 1);
      if |buffer| < passwordLenIndex + 1 then AuthWait
      else
        var expectedLen := passwordLenIndex + 1 + At(buffer, passwordLenIndex);
        if |buffer| < expectedLen then AuthWait
        else
          var user := buffer[2..passwordLenIndex];
          var pass := buffer[passwordLenIndex + 1..expectedLen];
          if CredentialsValid(users, user, pass) then AuthAccept(user) else AuthReject
  }

  // ---------------------------------------------------------------- request

  /** A parsed CONNECT request: `address` holds the raw address bytes or the domain name. */
  datatype ConnectRequest = ConnectRequest(atyp: byte, address: seq<byte>, port: nat)

  predicate IsIncomplete(buffer: seq<byte>) {
    if |buffer| < 4 then true
    else if buffer[3] == ATYP_IPV4 then |buffer| < 10
    else if buffer[3] == ATYP_IPV6 then |buffer| < 22
    else if buffer[3] == ATYP_DOMAIN then |buffer| < 5 || |buffer| < 5 + At(buffer, 4) + 2
    else false
  }

  function ReplyFor(buffer: seq<byte>): byte {
    if |buffer| < 4 || buffer[0] != VERSION || buffer[2] != 0 then REPLY_GENERAL_FAILURE
    else if buffer[1] != CMD_CONNECT then REPLY_COMMAND_NOT_SUPPORTED
    else if buffer[3] != ATYP_IPV4 && buffer[3] != ATYP_DOMAIN && buffer[3] != ATYP_IPV6 then
      REPLY_ADDRESS_TYPE_NOT_SUPPORTED
    else if IsIncomplete(buffer) then REPLY_GENERAL_FAILURE
    else REPLY_SUCCESS
  }

  function Port(buffer: seq<byte>, at: nat): nat
    requires at + 1 < |buffer|
  {
    At(buffer, at) * 256 + At(buffer, at + 1)
  }

  function ParseConnect(buffer: seq<byte>): Option<ConnectRequest> {
    if ReplyFor(buffer) != REPLY_SUCCESS then None
    else if buffer[3] == ATYP_IPV4 then Some(ConnectRequest(ATYP_IPV4, buffer[4..8], Port(buffer, 8)))
    else if buffer[3] == ATYP_IPV6 then Some(ConnectRequest(ATYP_IPV6, buffer[4..20], Port(buffer, 20)))
    else if buffer[4] == 0 then None
    else Some(ConnectRequest(ATYP_DOMAIN, buffer[5..5 + At(buffer, 4)], Port(buffer, 5 + At(buffer, 4))))
  }

  datatype RequestOutcome = RequestWait | RequestReject(code: byte) | RequestConnect(request: ConnectRequest)

  /** The request stage waits exactly while the request is incomplete. */
  function DecideRequest(buffer: seq<byte>): (r: RequestOutcome)
    ensures r == RequestWait <==> IsIncomplete(buffer)
    ensures r.RequestReject? ==> r.code in {1, 7, 8}
  {
    if |buffer| < 4 then RequestWait
    else
      var reply := ReplyFor(buffer);
      if reply != REPLY_SUCCESS then
        if IsIncomplete(buffer) then RequestWait else RequestReject(reply)
      else match ParseConnect(buffer)
           case None => RequestReject(REPLY_GENERAL_FAILURE)
           case Some(request) => RequestConnect(request)
  }

  // ---------------------------------------------------------------- replies

  function GreetingResponse(chosen: byte): seq<byte> {
    [VERSION, chosen]
  }

  function AuthResponse(status: byte): seq<byte> {
    [AUTH_VERSION, status]
  }

  function RequestResponse(reply: byte): seq<byte> {
    [VERSION, reply, 0, ATYP_IPV4, 0, 0, 0, 0, 0, 0]
  }

  // ---------------------------------------------------------------- bounds on undecided input

  /** An undecided message is short: at most 256 greeting bytes, 512 authentication bytes, 261 request bytes. */
  lemma UndecidedIsShort(buffer: seq<byte>, users: UserMap)
    ensures DecideGreeting(buffer, users) == GreetingWait ==> |buffer| <= 256
    ensures DecideAuth(buffer, users) == AuthWait ==> |buffer| <= 512
    ensures DecideRequest(buffer) == RequestWait ==> |buffer| <= 261
  {
  }
}
