/** The negotiation messages as RFC 1928 and RFC 1929 write them, against what the server decides about a prefix. */
module Messages {
  import opened Basics
  import opened Socks5

  // ---------------------------------------------------------------- the greeting, section 3 of RFC 1928

  function GreetingMessage(methods: seq<byte>): seq<byte>
    requires |methods| < 256
  {
    [VERSION, |methods| as byte] + methods
  }

  /** Passwords are chosen whenever offered, no authentication only when nobody is configured and no passwords were
      offered, whatever the order and number of the offers and whatever follows the message. */
  lemma GreetingIsDecided(methods: seq<byte>, trailing: seq<byte>, users: UserMap)
    requires |methods| < 256
    ensures DecideGreeting(GreetingMessage(methods) + trailing, users)
            == GreetingChoose(if METHOD_USERNAME_PASSWORD in methods then METHOD_USERNAME_PASSWORD
                              else if METHOD_NO_AUTH in methods && users == map[] then METHOD_NO_AUTH
                              else METHOD_NO_ACCEPTABLE)
  {
    var b := GreetingMessage(methods) + trailing;
    assert b[2..2 + At(b, 1)] == methods;
  }

  // ---------------------------------------------------------------- username and password, section 2 of RFC 1929

  function AuthMessage(user: seq<byte>, pass: seq<byte>): seq<byte>
    requires |user| < 256 && |pass| < 256
  {
    [AUTH_VERSION, |user| as byte] + user + [|pass| as byte] + pass
  }

  /** A message is accepted exactly when it starts with the spelling of a configured pair. */
  lemma AuthIsDecided(buffer: seq<byte>, users: UserMap, user: seq<byte>)
    ensures DecideAuth(buffer, users) == AuthAccept(user) <==>
              |user| < 256 && user in users && |users[user]| < 256 && AuthMessage(user, users[user]) <= buffer
  {
    if |user| < 256 && user in users && |users[user]| < 256 && AuthMessage(user, users[user]) <= buffer {
      var m, i := AuthMessage(user, users[user]), 2 + |user|;
      assert buffer[..|m|] == m && m[1] as int == |user| && m[i] as int == |users[user]|;
      assert buffer[2..i] == m[2..i] == user;
      assert buffer[i + 1..|m|] == m[i + 1..] == users[user];
    }
    if DecideAuth(buffer, users) == AuthAccept(user) {
      var i := 2 + At(buffer, 1);
      assert AuthMessage(user, users[user]) == buffer[..i + 1 + At(buffer, i)];
    }
  }

  // ---------------------------------------------------------------- the request, section 4 of RFC 1928

  predicate Encodable(r: ConnectRequest) {
    && r.port < 65536
    && (|| (r.atyp == ATYP_IPV4 && |r.address| == 4)
        || (r.atyp == ATYP_IPV6 && |r.address| == 16)
        || (r.atyp == ATYP_DOMAIN && 1 <= |r.address| <= 255))
  }

  function RequestMessage(r: ConnectRequest): seq<byte>
    requires Encodable(r)
  {
    [VERSION, CMD_CONNECT, 0, r.atyp]
    + (if r.atyp == ATYP_DOMAIN then [|r.address| as byte] else [])
    + r.address + [(r.port / 256) as byte, (r.port % 256) as byte]
  }

  /** Round trip: a request encoded and then parsed comes back, whatever follows it. */
  lemma RequestIsParsed(r: ConnectRequest, trailing: seq<byte>)
    requires Encodable(r)
    ensures DecideRequest(RequestMessage(r) + trailing) == RequestConnect(r)
  {
    var m := RequestMessage(r);
    var b := m + trailing;
    var i := if r.atyp == ATYP_DOMAIN then 5 else 4;
    assert b[i..i + |r.address|] == r.address;
    assert b[i + |r.address|] as int == r.port / 256 && b[i + |r.address| + 1] as int == r.port % 256;
  }

  /** The fixed part of a request that was accepted, with an address of `n` bytes from position `i` on. */
  ghost predicate Spelt(buffer: seq<byte>, r: ConnectRequest, i: nat, n: nat) {
    && 4 <= i && i + n + 2 <= |buffer| && r.port < 65536 && buffer[..4] == [VERSION, CMD_CONNECT, 0, r.atyp]
    && r.address == buffer[i..i + n]
    && buffer[i + n..i + n + 2] == [(r.port / 256) as byte, (r.port % 256) as byte]
  }

  lemma PortIsSpelt(high: byte, low: byte)
    ensures var port := high as int * 256 + low as int; port / 256 == high as int && port % 256 == low as int
  {
  }

  lemma NumericIsSpelt(buffer: seq<byte>)
    requires DecideRequest(buffer).RequestConnect? && buffer[3] != ATYP_DOMAIN
    ensures var r := DecideRequest(buffer).request; var n := if buffer[3] == ATYP_IPV4 then 4 else 16;
            && r.atyp == buffer[3] && (r.atyp == ATYP_IPV4 || r.atyp == ATYP_IPV6) && Spelt(buffer, r, 4, n)
  {
    var n := if buffer[3] == ATYP_IPV4 then 4 else 16;
    PortIsSpelt(buffer[4 + n], buffer[4 + n + 1]);
    assert buffer[4 + n..4 + n + 2] == [buffer[4 + n], buffer[4 + n + 1]];
    assert buffer[..4] == [buffer[0], buffer[1], buffer[2], buffer[3]];
  }

  lemma DomainIsSpelt(buffer: seq<byte>)
    requires DecideRequest(buffer).RequestConnect? && buffer[3] == ATYP_DOMAIN
    ensures var r := DecideRequest(buffer).request; var n := At(buffer, 4);
            && r.atyp == ATYP_DOMAIN && 1 <= n <= 255 && Spelt(buffer, r, 5, n)
  {
    var n := At(buffer, 4);
    PortIsSpelt(buffer[5 + n], buffer[5 + n + 1]);
    assert buffer[5 + n..5 + n + 2] == [buffer[5 + n], buffer[5 + n + 1]];
    assert buffer[..4] == [buffer[0], buffer[1], buffer[2], buffer[3]];
  }

  /** The parts of a request, put together, are a prefix of the buffer they were found in. */
  lemma SpeltIsPrefix(buffer: seq<byte>, r: ConnectRequest, i: nat, n: nat)
    requires Spelt(buffer, r, i, n)
    requires i == 4 || (i == 5 && buffer[4] as int == n)
    ensures buffer[..4] + buffer[4..i] + r.address + [(r.port / 256) as byte, (r.port % 256) as byte] == buffer[..i + n + 2]
  {
    assert buffer[..4] + buffer[4..i] == buffer[..i];
    assert buffer[..i] + buffer[i..i + n] == buffer[..i + n];
    assert buffer[..i + n] + buffer[i + n..i + n + 2] == buffer[..i + n + 2];
  }

  /** And back: whatever is accepted as a request starts with the encoding of what was parsed. */
  lemma ParsedIsARequest(buffer: seq<byte>)
    ensures DecideRequest(buffer).RequestConnect? ==>
              var r := DecideRequest(buffer).request;
              Encodable(r) && RequestMessage(r) <= buffer
  {
    if DecideRequest(buffer).RequestConnect? {
      var r := DecideRequest(buffer).request;
      AcceptedHeader(buffer);
      hide DecideRequest;
      if buffer[3] == ATYP_DOMAIN {
        var n := At(buffer, 4);
        DomainIsSpelt(buffer);
        SpeltIsPrefix(buffer, r, 5, n);
        assert buffer[4..5] == [n as byte];
      } else {
        var n := if buffer[3] == ATYP_IPV4 then 4 else 16;
        NumericIsSpelt(buffer);
        SpeltIsPrefix(buffer, r, 4, n);
      }
    }
  }

  lemma AcceptedHeader(buffer: seq<byte>)
    requires DecideRequest(buffer).RequestConnect?
    ensures |buffer| >= 5
  {
  }
}
