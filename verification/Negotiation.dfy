/** The negotiation, byte by byte: what one more read does to a session in each stage, told from the bytes it then holds. */
module Negotiation {
  import opened Basics
  import opened Socks5
  import opened Proxy
  import opened Codes
  import opened Invariant
  import opened Local
  import opened RelaySteps
  import opened HandshakeSteps
  import opened RequestSteps
  import opened Isolation
  import opened Histories
  import opened Handlers
  import opened Events
  import opened Progress
  import opened Traffic
  import opened Endings
  import opened Outcomes

  // ---------------------------------------------------------------- the greeting

  /** A greeting that is not all there yet. */
  ghost predicate GreetingLacks(b: seq<byte>) {
    |b| < 2 || (b[0] == 5 && |b| < 2 + At(b, 1))
  }

  /** The method for a complete greeting. */
  ghost function MethodFor(b: seq<byte>, users: UserMap): byte
    requires |b| >= 2 && |b| >= 2 + At(b, 1)
  {
    var offered := b[2..2 + At(b, 1)];
    if 2 in offered then 2 else if 0 in offered && users == map[] then 0 else 255
  }

  lemma GreetingSpelt(v: View, got: seq<byte>, users: UserMap)
    ensures var b := v.s.readBuf + got; var e := GreetingRead(Longer(v, got), users);
            && (GreetingLacks(b) ==> e == Stay(Longer(v, got)))
            && (|b| >= 2 && b[0] != 5 ==> e.Drop?)
            && (!GreetingLacks(b) && b[0] == 5 ==>
                  var chosen := MethodFor(b, users);
                  && e.Stay? && e.v.s == v.s.(readBuf := [], writeBuf := [5, chosen], writeOff := 0,
                                              stage := if chosen == 2 then Auth else if chosen == 0 then Request else Closing))
  {
  }

  // ---------------------------------------------------------------- credentials

  ghost predicate CredentialsLack(b: seq<byte>) {
    |b| < 2 || (b[0] == 1 && (|b| < 3 + At(b, 1) || |b| < 3 + At(b, 1) + At(b, 2 + At(b, 1))))
  }

  /** The pair a complete message spells is configured. */
  ghost predicate Presents(b: seq<byte>, users: UserMap)
    requires !CredentialsLack(b)
  {
    && b[0] == 1
    && b[2..2 + At(b, 1)] in users && users[b[2..2 + At(b, 1)]] == b[3 + At(b, 1)..3 + At(b, 1) + At(b, 2 + At(b, 1))]
  }

  lemma CredentialsSpelt(v: View, got: seq<byte>, users: UserMap)
    ensures var b := v.s.readBuf + got; var e := AuthRead(Longer(v, got), users);
            && e.Stay?
            && (CredentialsLack(b) ==> e == Stay(Longer(v, got)))
            && (!CredentialsLack(b) ==>
                  e.v.s == if Presents(b, users)
                           then v.s.(readBuf := [], writeBuf := [1, 0], writeOff := 0, stage := Request, username := b[2..2 + At(b, 1)])
                           else v.s.(readBuf := [], writeBuf := [1, 1], writeOff := 0, stage := Closing))
  {
  }

  // ---------------------------------------------------------------- the request

  ghost predicate RequestLacks(b: seq<byte>) {
    || |b| < 4
    || (b[3] == 1 && |b| < 10)
    || (b[3] == 4 && |b| < 22)
    || (b[3] == 3 && (|b| < 5 || |b| < 7 + At(b, 4)))
  }

  /** Why a complete request is not taken up, or 0: no SOCKS 5, or no name; not CONNECT; no address type. */
  ghost function Objection(b: seq<byte>): byte
    requires !RequestLacks(b)
  {
    if b[0] != 5 || b[2] != 0 then 1
    else if b[1] != 1 then 7
    else if b[3] != 1 && b[3] != 3 && b[3] != 4 then 8
    else if b[3] == 3 && b[4] == 0 then 1
    else 0
  }

  /** What a request that is taken up asks for. */
  ghost function Asks(b: seq<byte>): ConnectRequest
    requires !RequestLacks(b) && Objection(b) == 0
  {
    var at := if b[3] == 3 then 5 else 4;
    var len := if b[3] == 1 then 4 else if b[3] == 4 then 16 else At(b, 4);
    ConnectRequest(b[3], b[at..at + len], 256 * At(b, at + len) + At(b, at + len + 1))
  }

  lemma RequestSpelt(b: seq<byte>)
    ensures DecideRequest(b) == if RequestLacks(b) then RequestWait
                                else if Objection(b) != 0 then RequestReject(Objection(b)) else RequestConnect(Asks(b))
  {
  }

  // ---------------------------------------------------------------- one more read

  /** Session `sid` is read on its descriptor while it negotiates. */
  ghost predicate Reads(w: World, fd: Fd, sid: Sid, stage: Stage) {
    sid in w.heap && w.heap[sid].clientFd == Some(fd) && w.heap[sid].stage == stage && w.heap[sid].writeBuf == []
  }

  lemma ReadingFacts(w: World, fd: Fd, sid: Sid, io: Io, stage: Stage)
    requires Inv(w) && Reads(w, fd, sid, stage) && io.recv.Received? && io.recv.bytes != []
    requires stage == Greeting || stage == Auth || stage == Request
    ensures Ready0(w, sid, fd) && fd in w.table && w.table[fd].sid == sid && w.table[fd].kind == ClientItem && w.table[fd].interest.read
    ensures |w.heap[sid].readBuf| <= 512 && NoReply(w.heap[sid]) && w.open == w.table.Keys && !w.heap[sid].relayStarted
    ensures var got := Take(io.recv.bytes, BUFFER_SIZE - |w.heap[sid].readBuf|);
            got != [] && Filled(w.heap[sid], io.recv) == w.heap[sid].readBuf + got
  {
    hide Inv, InvExcept, Good, Filled;
    Arms(w, sid, fd);
    Lookup1(w, fd);
    ReadArmed(ViewOf(w, sid));
    FilledIs(w.heap[sid], io.recv);
    OpenIsRegistered1(w);
    NotYetStarted(ViewOf(w, sid));
  }

  lemma OpenIsRegistered1(w: World)
    requires Inv(w)
    ensures w.open == w.table.Keys
  {
  }

  /** The greeting: more bytes are waited for, anything but SOCKS 5 is dropped, and a complete greeting is answered. */
  lemma GreetingsAreAnswered(events: seq<Event>, fd: Fd, sid: Sid, io: Io)
    ensures var w := Run(START, events); var r := Step(w, Ready(fd, true, false, io, io));
            Reads(w, fd, sid, Greeting) && io.recv.Received? && io.recv.bytes != [] ==>
              var s := w.heap[sid]; var b := Filled(s, io.recv);
              && (GreetingLacks(b) ==> sid in r.heap && r.heap[sid] == s.(readBuf := b))
              && (|b| >= 2 && b[0] != 5 ==> sid !in r.heap)
              && (!GreetingLacks(b) && b[0] == 5 ==>
                    var chosen := MethodFor(b, io.users);
                    && sid in r.heap
                    && r.heap[sid] == s.(readBuf := [], writeBuf := [5, chosen], writeOff := 0,
                                         stage := if chosen == 2 then Auth else if chosen == 0 then Request else Closing))
  {
    hide Run, Inv, Awaited, ReadGreeting, Leaves, GreetingRead, GreetingLacks, MethodFor, Filled, InvExcept, Good;
    Reachable(events);
    var w := Run(START, events);
    if Reads(w, fd, sid, Greeting) && io.recv.Received? && io.recv.bytes != [] {
      ReadingFacts(w, fd, sid, io, Greeting);
      var v := ViewOf(w, sid);
      var got := Take(io.recv.bytes, BUFFER_SIZE - |v.s.readBuf|);
      GreetingLeaves(w, fd, sid, got, io.users);
      GreetingSpelt(v, got, io.users);
      ExitStays(w, sid, ReadGreeting(Put(w, sid, Longer(v, got).s), fd, sid, io.users), GreetingRead(Longer(v, got), io.users));
      hide Put;
    }
  }

  /** Credentials: more bytes are waited for, and a complete message is accepted or refused. */
  lemma CredentialsAreAnswered(events: seq<Event>, fd: Fd, sid: Sid, io: Io)
    ensures var w := Run(START, events); var r := Step(w, Ready(fd, true, false, io, io));
            Reads(w, fd, sid, Auth) && io.recv.Received? && io.recv.bytes != [] ==>
              var s := w.heap[sid]; var b := Filled(s, io.recv);
              && sid in r.heap
              && r.heap[sid]
                 == if CredentialsLack(b) then s.(readBuf := b)
                    else if Presents(b, io.users)
                    then s.(readBuf := [], writeBuf := [1, 0], writeOff := 0, stage := Request, username := b[2..2 + At(b, 1)])
                    else s.(readBuf := [], writeBuf := [1, 1], writeOff := 0, stage := Closing)
  {
    hide Run, Inv, Awaited, ReadAuth, Leaves, AuthRead, Presents, Filled, InvExcept, Good;
    Reachable(events);
    var w := Run(START, events);
    if Reads(w, fd, sid, Auth) && io.recv.Received? && io.recv.bytes != [] {
      ReadingFacts(w, fd, sid, io, Auth);
      var v := ViewOf(w, sid);
      var got := Take(io.recv.bytes, BUFFER_SIZE - |v.s.readBuf|);
      AuthLeaves(w, fd, sid, got, io.users);
      CredentialsSpelt(v, got, io.users);
      ExitStays(w, sid, ReadAuth(Put(w, sid, Longer(v, got).s), fd, sid, io.users), AuthRead(Longer(v, got), io.users));
      hide Put;
    }
  }

  // ---------------------------------------------------------------- taking a request up

  lemma OneTry(a: Address, attempts: seq<Attempt>, open: set<Fd>)
    ensures var first := FirstAttempt(attempts);
            Tries([a], attempts, open) == [Try(a, if Starts(first, open) then Pending else Failed(first.errno))]
  {
    assert [a][1..] == [];
    assert Tries([], [], open) == [] && (attempts != [] ==> Tries([], attempts[1..], open) == []);
  }

  lemma BeginLiteralPast(w: World, sid: Sid, q: ConnectRequest, io: Io)
    requires Live(w, sid) && w.heap[sid].addresses.None? && w.heap[sid].job.None? && w.open == w.table.Keys && q.atyp != 3
    ensures var h := Past(w, sid); var h' := Past(Begin(w, w.heap[sid].clientFd.value, sid, q, io), sid);
            var a := Address(if q.atyp == 1 then 2 else 10, q.address, q.port);
            Unlogged(h') == Unlogged(h.(request := Some(q), candidates := [a], tried := h.tried + Tries([a], io.attempts, w.open),
                                        replies := h'.replies))
  {
    hide Begin, StartConnection, AfterStart, Commit, Tries;
    var v, fd := ViewOf(w, sid), w.heap[sid].clientFd.value;
    BeginIs(w, sid, q, io);
    OneTry(Literal(q), io.attempts, w.open);
    var v1 := WithCandidate(v, q);
    CommitPast(w, sid, v1, sid);
    CommitOpen(w, sid, v1);
    var w1 := Commit(w, sid, v1);
    StartConnectionPast(w1, sid, Literal(q), FirstAttempt(io.attempts), sid);
    AfterStartPast(StartConnection(w1, sid, Literal(q), FirstAttempt(io.attempts)), fd, sid, sid);
    hide Past;
  }

  lemma BeginNamedPast(w: World, sid: Sid, q: ConnectRequest, io: Io)
    requires Live(w, sid) && w.heap[sid].addresses.None? && w.heap[sid].job.None? && w.open == w.table.Keys && q.atyp == 3
    ensures var h := Past(w, sid); var r := Begin(w, w.heap[sid].clientFd.value, sid, q, io);
            && Unlogged(Past(r, sid)) == Unlogged(if io.resolverStarts then h.(request := Some(q), lookup := Some(|w.origins|))
                                                  else h.(request := Some(q), replies := h.replies + [1]))
            && (io.resolverStarts ==>
                  && sid in r.heap && r.heap[sid].stage == Resolving && r.heap[sid].job == Some(|w.origins|)
                  && r.origins == w.origins + [Origin(sid, CString(q.address), q.port, None)]
                  && r.threads == w.threads[|w.origins| := Lookup] && |w.origins| in r.jobs && r.jobs[|w.origins|].state == Some(sid))
  {
    hide Begin, Commit, CString;
    var v, fd := ViewOf(w, sid), w.heap[sid].clientFd.value;
    BeginIs(w, sid, q, io);
    var v1 := WithRequest(v, q);
    CommitPast(w, sid, v1, sid);
    CommitOpen(w, sid, v1);
    CommitLookups(w, sid, v1);
    BeginLookupPast(Commit(w, sid, v1), fd, sid, q, io, sid);
    if io.resolverStarts { LookupBegins(Commit(w, sid, v1), fd, sid, q, io); }
    hide BeginLookup, Past;
  }

  lemma CommitLookups(w: World, sid: Sid, v: View)
    requires Live(w, sid)
    ensures var c := Commit(w, sid, v); c.origins == w.origins && c.threads == w.threads && c.jobs == w.jobs
  {
  }

  lemma LookupBegins(w: World, fd: Fd, sid: Sid, q: ConnectRequest, io: Io)
    requires sid in w.heap && io.resolverStarts
    ensures var r := BeginLookup(w, fd, sid, q, io); var j := |w.origins|;
            && sid in r.heap && r.heap[sid].stage == Resolving && r.heap[sid].job == Some(j)
            && r.origins == w.origins + [Origin(sid, CString(q.address), q.port, None)] && r.threads == w.threads[j := Lookup]
            && j in r.jobs && r.jobs[j].state == Some(sid)
  {
    hide CString, Remember;
    var s, j := w.heap[sid], |w.origins|;
    var w1 := w.(origins := w.origins + [Origin(sid, CString(q.address), q.port, None)],
                 jobs := w.jobs[j := Job(if s.clientFd.Some? then s.clientFd.value else 0, Some(sid), false, EAI_AGAIN, false)],
                 threads := w.threads[j := Lookup]);
    var h := Past(w1, sid).(lookup := Some(j));
    RememberApart(w1, sid, h, sid);
    SetInterestApart(Put(Remember(w1, sid, h), sid, s.(job := Some(j), stage := Resolving)), fd, NOOP, sid);
  }

  lemma DiscardingIs(w: World, sid: Sid)
    requires sid in w.heap
    ensures var r := Discarding(w, sid);
            && r.heap == w.heap[sid := w.heap[sid].(readBuf := [])] && r.hist == w.hist && r.origins == w.origins
            && r.threads == w.threads && r.jobs == w.jobs
  {
  }

  /** What a session that has taken up a request looks like. */
  ghost predicate TakesUp(w: World, r: World, sid: Sid, q: ConnectRequest, io: Io) {
    var h := Past(w, sid); var a := Address(if q.atyp == 1 then 2 else 10, q.address, q.port);
    if q.atyp != 3 then
      Stands(r, sid, h.(request := Some(q), candidates := [a], tried := Tries([a], io.attempts, w.open), replies := Past(r, sid).replies))
    else if io.resolverStarts then
      && Unlogged(Past(r, sid)) == Unlogged(h.(request := Some(q), lookup := Some(|w.origins|)))
      && sid in r.heap && r.heap[sid].stage == Resolving && r.heap[sid].job == Some(|w.origins|)
      && r.origins == w.origins + [Origin(sid, CString(q.address), q.port, None)]
      && r.threads == w.threads[|w.origins| := Lookup] && |w.origins| in r.jobs && r.jobs[|w.origins|].state == Some(sid)
    else
      && Unlogged(Past(r, sid)) == Unlogged(h.(request := Some(q), replies := [1]))
      && sid in r.heap && r.heap[sid].stage == Closing && r.heap[sid].writeBuf == ConnectReply(1)
  }

  lemma FreshHistory(w: World, sid: Sid)
    requires Live(w, sid) && Good(ViewOf(w, sid)) && w.heap[sid].stage == Request
    ensures var h := Past(w, sid); h.tried == [] && h.replies == [] && !h.succeeded && h.resolved.None? && sid < |w.hist|
  {
    hide HistOk, StageOk;
  }

  lemma TakenUp(w: World, sid: Sid, got: seq<byte>, q: ConnectRequest, io: Io, r: World)
    requires Live(w, sid) && Good(ViewOf(w, sid)) && w.heap[sid].stage == Request && w.open == w.table.Keys
    requires r == Discarding(Begin(Put(w, sid, Longer(ViewOf(w, sid), got).s), w.heap[sid].clientFd.value, sid, q, io), sid) && Inv(r)
    ensures TakesUp(w, r, sid, q, io)
  {
    hide Inv, Good, Begin, Discarding, Stands, Tries, CString, Commit;
    var v := ViewOf(w, sid);
    var v1 := Longer(v, got);
    var w1 := Put(w, sid, v1.s);
    FreshHistory(w, sid);
    RequestIsBare(v);
    NotYetStarted(v);
    PutIs(w, sid, v1.s);
    CommitView(w, sid, v1);
    PutPast(w, sid, v1.s, sid);
    BeginStage(w1, sid, q, io);
    var g := Begin(w1, w.heap[sid].clientFd.value, sid, q, io);
    DiscardingIs(g, sid);
    SamePast(g, r, sid);
    var h, h' := Past(w, sid), Past(r, sid);
    if q.atyp != 3 {
      BeginLiteralPast(w1, sid, q, io);
      FindStand(r, sid, h');
      var a := Address(if q.atyp == 1 then 2 else 10, q.address, q.port);
      assert h.tried + Tries([a], io.attempts, w.open) == Tries([a], io.attempts, w.open);
      SameStand(r, sid, h', h.(request := Some(q), candidates := [a], tried := Tries([a], io.attempts, w.open), replies := h'.replies));
    } else {
      BeginNamedPast(w1, sid, q, io);
      assert h.replies + [1] == [1];
      if !io.resolverStarts { RefusedStands(r, sid); }
    }
  }

  lemma RejectedIs(w: World, fd: Fd, sid: Sid, got: seq<byte>, code: byte)
    requires Live(w, sid) && Good(ViewOf(w, sid)) && w.heap[sid].stage == Request && w.heap[sid].clientFd == Some(fd)
    ensures var s := w.heap[sid]; var h := Past(w, sid);
            var r := SetInterest(Discarding(Refuse(Put(w, sid, Longer(ViewOf(w, sid), got).s), sid, code, false), sid), fd, WRITE);
            && sid in r.heap
            && r.heap[sid] == s.(readBuf := [], writeBuf := ConnectReply(code), writeOff := 0, stage := Closing)
            && Past(r, sid) == h.(replies := [code])
  {
    hide Good, Refuse, Discarding, SetInterest;
    var v := ViewOf(w, sid);
    FreshHistory(w, sid);
    RejectIs(w, fd, sid, got, code);
    var v1 := Refused(Longer(v, got), code);
    CommitPast(w, sid, v1, sid);
    RepliesAreSpelt(code);
    assert [] + [code] == [code];
  }

  /** The request: more bytes are waited for; a request that cannot be taken up is refused with the code its first bytes
      call for; a literal address is tried at once; a name is looked up. */
  lemma RequestsAreAnswered(events: seq<Event>, fd: Fd, sid: Sid, io: Io)
    ensures var w := Run(START, events); var r := Step(w, Ready(fd, true, false, io, io));
            Reads(w, fd, sid, Request) && io.recv.Received? && io.recv.bytes != [] ==>
              var s := w.heap[sid]; var b := Filled(s, io.recv);
              if RequestLacks(b) then sid in r.heap && r.heap[sid] == s.(readBuf := b)
              else if Objection(b) != 0 then
                && sid in r.heap
                && r.heap[sid] == s.(readBuf := [], writeBuf := ConnectReply(Objection(b)), writeOff := 0, stage := Closing)
                && Past(r, sid) == Past(w, sid).(replies := [Objection(b)])
              else TakesUp(w, r, sid, Asks(b), io)
  {
    hide Run, Inv, Awaited, Begin, Refuse, Discarding, SetInterest, DecideRequest, RequestLacks, Objection, Asks, Filled, InvExcept, Good,
      TakesUp;
    Reachable(events);
    var w := Run(START, events);
    if Reads(w, fd, sid, Request) && io.recv.Received? && io.recv.bytes != [] {
      ReadingFacts(w, fd, sid, io, Request);
      var v := ViewOf(w, sid);
      var got := Take(io.recv.bytes, BUFFER_SIZE - |v.s.readBuf|);
      var b := v.s.readBuf + got;
      RequestSpelt(b);
      Reachable(events + [Ready(fd, true, false, io, io)]);
      RunOne(START, events, Ready(fd, true, false, io, io));
      match DecideRequest(b) {
        case RequestWait =>
        case RequestReject(code) => RejectedIs(w, fd, sid, got, code);
        case RequestConnect(q) => TakenUp(w, sid, got, q, io, Step(w, Ready(fd, true, false, io, io)));
      }
    }
  }

  // ---------------------------------------------------------------- new connections

  /** A session that has just been accepted on `fd`: nothing read, nothing to send, nobody known. */
  ghost predicate JustAccepted(w: World, sid: Sid, fd: Fd) {
    && sid in w.heap && fd in w.table && w.table[fd] == Item(ClientItem, Interest(true, false), sid)
    && var s := w.heap[sid];
    && s.stage == Greeting && s.clientFd == Some(fd) && s.targetFd.None?
    && s.readBuf == [] && s.writeBuf == [] && s.c2t == [] && s.t2c == []
    && s.username == [97, 110, 111, 110, 121, 109, 111, 117, 115] && !s.relayStarted && s.job.None? && s.addresses.None?
  }

  /** A connection gets a session of its own exactly when the selector has room for its descriptor; otherwise nothing
      changes. The kernel hands out a descriptor that is not open, the wanted one if it is free. */
  lemma ConnectionsAreAccepted(events: seq<Event>, want: Fd)
    ensures var w := Run(START, events); var r := Step(w, Accept(want)); var fd := FreshFd(w.open, want); var sid := |w.hist|;
            && fd !in w.open && (want !in w.open ==> fd == want)
            && (fd >= 1024 ==> r == w)
            && (fd < 1024 ==>
                  && sid !in w.heap && JustAccepted(r, sid, fd) && r.open == w.open + {fd}
                  && r.heap == w.heap[sid := r.heap[sid]] && r.table == w.table[fd := r.table[fd]] && r.hist == w.hist + [BLANK])
  {
    hide Run, Inv, Awaited;
    Reachable(events);
    var w := Run(START, events);
    AcceptIs(w, want);
    assert |w.hist| !in w.heap by { NobodyYet(w); }
    hide AcceptClient, FreshFd;
    if FreshFd(w.open, want) < 1024 {} else {}
  }

  lemma NobodyYet(w: World)
    requires Inv(w)
    ensures |w.hist| !in w.heap
  {
    hide Resolution, Accounts, HistOk, SessionOk;
    FreshSid(w);
  }
}
