/** However a client's bytes are cut into reads, the negotiation goes the same way
    (src/server/client_session.c lines 234-355, src/server/auth.c lines 11-49, src/server/socks5.c lines 74-120). */
module Fragmentation {
  import opened Basics
  import opened Socks5
  import opened Proxy
  import opened Invariant
  import opened Teardown
  import opened Isolation
  import opened Handlers
  import opened Events

  // ---------------------------------------------------------------- decisions

  /** A decision on a prefix is the decision on every extension. */
  lemma DecisionsAreStable(a: seq<byte>, b: seq<byte>, users: UserMap)
    requires a <= b
    ensures DecideGreeting(a, users) != GreetingWait ==> DecideGreeting(b, users) == DecideGreeting(a, users)
    ensures DecideAuth(a, users) != AuthWait ==> DecideAuth(b, users) == DecideAuth(a, users)
    ensures DecideRequest(a) != RequestWait ==> DecideRequest(b) == DecideRequest(a)
  {
    var c := b[|a|..];
    assert b == a + c;
    assert forall i, j | 0 <= i <= j <= |a| :: b[i..j] == a[i..j];
  }

  ghost predicate Negotiating(stage: Stage) {
    stage == Greeting || stage == Auth || stage == Request
  }

  /** The bytes are enough to decide what `stage` waits for; the users do not matter to that. */
  ghost predicate Decides(stage: Stage, bytes: seq<byte>) {
    match stage
    case Greeting => DecideGreeting(bytes, map[]) != GreetingWait
    case Auth => DecideAuth(bytes, map[]) != AuthWait
    case Request => DecideRequest(bytes) != RequestWait
    case _ => true
  }

  lemma UsersDoNotMatter(b: seq<byte>, users: UserMap)
    ensures DecideGreeting(b, users) == GreetingWait <==> DecideGreeting(b, map[]) == GreetingWait
    ensures DecideAuth(b, users) == AuthWait <==> DecideAuth(b, map[]) == AuthWait
  {
  }

  // ---------------------------------------------------------------- what the undecided input is worth to a handler

  /** The same world with other bytes in the read buffer of `sid`. */
  ghost function H(w: World, sid: Sid, b: seq<byte>): World {
    if sid in w.heap then w.(heap := w.heap[sid := w.heap[sid].(readBuf := b)]) else w
  }

  lemma PutH(w: World, sid: Sid, s: Session, b: seq<byte>)
    ensures Put(H(w, sid, b), sid, s.(readBuf := b)) == H(Put(w, sid, s), sid, b)
  {
    assert Put(H(w, sid, b), sid, s.(readBuf := b)).heap == H(Put(w, sid, s), sid, b).heap;
  }

  lemma RememberH(w: World, sid: Sid, h: Hist, b: seq<byte>)
    ensures Remember(H(w, sid, b), sid, h) == H(Remember(w, sid, h), sid, b)
  {
    if sid in w.heap {
      if sid < |w.hist| {} else {}
    }
  }

  lemma SetInterestH(w: World, sid: Sid, fd: Fd, interest: Interest, b: seq<byte>)
    ensures SetInterest(H(w, sid, b), fd, interest) == H(SetInterest(w, fd, interest), sid, b)
  {
    if sid in w.heap {
      if fd in w.table {} else {}
    }
  }

  lemma LogAccessH(w: World, sid: Sid, success: bool, b: seq<byte>)
    ensures LogAccess(H(w, sid, b), sid, success) == H(LogAccess(w, sid, success), sid, b)
  {
    hide Put, Remember;
    if sid in w.heap {
      var s := w.heap[sid];
      if !s.accessLogged && HasDestination(s) {
        var h := Past(w, sid);
        var h' := h.(records := h.records + [Record(s.username, s.destination, s.port, success)]);
        RememberH(w, sid, h', b);
        PutH(Remember(w, sid, h'), sid, s.(accessLogged := true), b);
      }
    }
  }

  lemma RefuseH(w: World, sid: Sid, code: byte, logged: bool, b: seq<byte>)
    ensures Refuse(H(w, sid, b), sid, code, logged) == H(Refuse(w, sid, code, logged), sid, b)
  {
    hide LogAccess, Put, Remember, RequestResponse;
    if sid in w.heap {
      var h := Past(w, sid);
      RememberH(w, sid, h.(replies := h.replies + [code]), b);
      var w1 := Remember(w, sid, h.(replies := h.replies + [code])).(metrics := w.metrics.(failed := w.metrics.failed + 1));
      LogAccessH(w1, sid, false, b);
      var w2 := if logged then LogAccess(w1, sid, false) else w1;
      if sid in w2.heap {
        PutH(w2, sid, w2.heap[sid].(writeBuf := RequestResponse(code), writeOff := 0, stage := Closing), b);
      }
    }
  }

  lemma AttemptFailedH(w: World, sid: Sid, address: Address, errno: int, b: seq<byte>)
    ensures var r := AttemptFailed(w, sid, address, errno);
            AttemptFailed(H(w, sid, b), sid, address, errno) == Started(H(r.w, sid, b), r.ok)
  {
    hide Put, Remember;
    if sid in w.heap {
      var h := Past(w, sid);
      var h' := h.(tried := h.tried + [Try(address, Failed(errno))]);
      RememberH(w, sid, h', b);
      PutH(Remember(w, sid, h'), sid, w.heap[sid].(lastError := errno), b);
    }
  }

  lemma LinkH(w: World, sid: Sid, open: set<Fd>, table: map<Fd, Item>, b: seq<byte>)
    ensures H(w, sid, b).(open := open, table := table) == H(w.(open := open, table := table), sid, b)
  {
    if sid in w.heap {} else {}
  }

  lemma LaunchedH(w: World, sid: Sid, fd: Fd, address: Address, b: seq<byte>)
    requires sid in w.heap
    ensures Launched(H(w, sid, b), sid, fd, address) == H(Launched(w, sid, fd, address), sid, b)
  {
    hide Put, Remember;
    var s, h := w.heap[sid], Past(w, sid);
    var open, table := w.open + {fd}, w.table[fd := Item(TargetItem, WRITE, sid)];
    var w1 := Remember(w, sid, h.(tried := h.tried + [Try(address, Pending)]));
    RememberH(w, sid, h.(tried := h.tried + [Try(address, Pending)]), b);
    LinkH(w1, sid, open, table, b);
    PutH(w1.(open := open, table := table), sid, s.(targetFd := Some(fd), stage := Connecting), b);
  }

  lemma StartConnectionH(w: World, sid: Sid, address: Address, attempt: Attempt, b: seq<byte>)
    requires sid in w.heap
    ensures var r := StartConnection(w, sid, address, attempt);
            StartConnection(H(w, sid, b), sid, address, attempt) == Started(H(r.w, sid, b), r.ok)
  {
    hide StartConnection, AttemptFailed, Put, Launched;
    ConnectionStarts(w, sid, address, attempt);
    ConnectionStarts(H(w, sid, b), sid, address, attempt);
    AttemptFailedH(w, sid, address, attempt.errno, b);
    PutH(w, sid, w.heap[sid].(targetFd := None), b);
    AttemptFailedH(Abandoned(w, sid), sid, address, attempt.errno, b);
    if attempt.Underway? { LaunchedH(w, sid, FreshFd(w.open, attempt.fd), address, b); }
  }

  lemma AfterStartH(r: Started, fd: Fd, sid: Sid, b: seq<byte>)
    ensures AfterStart(Started(H(r.w, sid, b), r.ok), fd, sid) == H(AfterStart(r, fd, sid), sid, b)
  {
    hide Refuse, SetInterest;
    SetInterestH(r.w, sid, fd, NOOP, b);
    if sid in r.w.heap {
      var code := ReplyForErrno(r.w.heap[sid].lastError);
      RefuseH(r.w, sid, code, true, b);
      SetInterestH(Refuse(r.w, sid, code, true), sid, fd, WRITE, b);
    }
  }

  lemma BeginLookupH(w: World, fd: Fd, sid: Sid, request: ConnectRequest, io: Io, b: seq<byte>)
    ensures BeginLookup(H(w, sid, b), fd, sid, request, io) == H(BeginLookup(w, fd, sid, request, io), sid, b)
  {
    hide Refuse, Put, SetInterest, Remember;
    if sid in w.heap {
      RefuseH(w, sid, REPLY_GENERAL_FAILURE, true, b);
      SetInterestH(Refuse(w, sid, REPLY_GENERAL_FAILURE, true), sid, fd, WRITE, b);
      var s := w.heap[sid];
      var j := |w.origins|;
      var w1 := w.(origins := w.origins + [Origin(sid, CString(request.address), request.port, None)],
                   jobs := w.jobs[j := Job(if s.clientFd.Some? then s.clientFd.value else 0, Some(sid), false, EAI_AGAIN, false)],
                   threads := w.threads[j := Lookup]);
      var h := Past(w1, sid).(lookup := Some(j));
      RememberH(w1, sid, h, b);
      PutH(Remember(w1, sid, h), sid, s.(job := Some(j), stage := Resolving), b);
      SetInterestH(Put(Remember(w1, sid, h), sid, s.(job := Some(j), stage := Resolving)), sid, fd, NOOP, b);
    }
  }

  lemma NothingToFree(w: World, sid: Sid)
    requires sid in w.heap && w.heap[sid].addresses.None? && w.heap[sid].job.None?
    ensures FreeAddresses(w, sid) == w && DetachResolver(w, sid) == w
  {
  }

  /** The session has taken up its request. */
  ghost function TakenUp(w: World, sid: Sid, request: ConnectRequest): World
    requires sid in w.heap
  {
    var s := w.heap[sid].(lastError := 0, port := request.port, accessLogged := false,
                          destination := if request.atyp == ATYP_DOMAIN then Named(CString(request.address))
                                         else Numeric(request.address));
    Put(Remember(w, sid, Past(w, sid).(request := Some(request))), sid, s)
  }

  ghost function WithLiteral(w: World, sid: Sid, request: ConnectRequest): World {
    Remember(w, sid, Past(w, sid).(candidates := [Literal(request)]))
  }

  lemma BeginTakesUp(w: World, fd: Fd, sid: Sid, request: ConnectRequest, io: Io)
    requires sid in w.heap && w.heap[sid].addresses.None? && w.heap[sid].job.None?
    ensures var w1 := TakenUp(w, sid, request); var w2 := WithLiteral(w1, sid, request);
            && sid in w2.heap
            && Begin(w, fd, sid, request, io)
               == if request.atyp == ATYP_DOMAIN then BeginLookup(w1, fd, sid, request, io)
                  else AfterStart(StartConnection(w2, sid, Literal(request), FirstAttempt(io.attempts)), fd, sid)
  {
    hide BeginLookup, StartConnection, AfterStart, CString;
    NothingToFree(w, sid);
    NothingToFree(TakenUp(w, sid, request), sid);
    hide FreeAddresses, DetachResolver;
  }

  lemma TakenUpH(w: World, sid: Sid, request: ConnectRequest, b: seq<byte>)
    requires sid in w.heap
    ensures sid in H(w, sid, b).heap && TakenUp(H(w, sid, b), sid, request) == H(TakenUp(w, sid, request), sid, b)
    ensures var w1 := TakenUp(w, sid, request);
            WithLiteral(H(w1, sid, b), sid, request) == H(WithLiteral(w1, sid, request), sid, b)
  {
    hide Remember, Put, CString;
    var s := w.heap[sid].(lastError := 0, port := request.port, accessLogged := false,
                          destination := if request.atyp == ATYP_DOMAIN then Named(CString(request.address))
                                         else Numeric(request.address));
    var h := Past(w, sid).(request := Some(request));
    var w1 := TakenUp(w, sid, request);
    RememberH(w, sid, h, b);
    PutH(Remember(w, sid, h), sid, s, b);
    RememberH(w1, sid, Past(w1, sid).(candidates := [Literal(request)]), b);
  }

  /** target_connection_begin does not look at the read buffer. */
  lemma BeginH(w: World, fd: Fd, sid: Sid, request: ConnectRequest, io: Io, b: seq<byte>)
    requires sid in w.heap && w.heap[sid].addresses.None? && w.heap[sid].job.None?
    ensures Begin(H(w, sid, b), fd, sid, request, io) == H(Begin(w, fd, sid, request, io), sid, b)
  {
    hide Begin, BeginLookup, StartConnection, AfterStart, TakenUp, WithLiteral;
    BeginTakesUp(w, fd, sid, request, io);
    BeginTakesUp(H(w, sid, b), fd, sid, request, io);
    TakenUpH(w, sid, request, b);
    hide H;
    var w1 := TakenUp(w, sid, request);
    if request.atyp == ATYP_DOMAIN {
      BeginLookupH(w1, fd, sid, request, io, b);
    } else {
      var w2 := WithLiteral(w1, sid, request);
      StartConnectionH(w2, sid, Literal(request), FirstAttempt(io.attempts), b);
      AfterStartH(StartConnection(w2, sid, Literal(request), FirstAttempt(io.attempts)), fd, sid, b);
    }
  }

  // ---------------------------------------------------------------- one read

  /** What client_read does once its session has collected `b`. */
  ghost function Settle(w: World, fd: Fd, sid: Sid, b: seq<byte>, io: Io): World
    requires sid in w.heap
  {
    match w.heap[sid].stage
    case Greeting => ReadGreeting(H(w, sid, b), fd, sid, io.users)
    case Auth => ReadAuth(H(w, sid, b), fd, sid, io.users)
    case _ => ReadRequest(H(w, sid, b), fd, sid, io)
  }

  /** The history of `sid` without the exact bytes its negotiation was decided on. */
  ghost function Forget(w: World, sid: Sid): World {
    Remember(w, sid, Past(w, sid).(greeting := None, auth := None))
  }

  /** A session that waits for the rest of a message. */
  ghost predicate Listening(w: World, fd: Fd, sid: Sid) {
    && Linkage(w) && Resolution(w) && sid in w.heap && w.heap[sid].clientFd == Some(fd)
    && Negotiating(w.heap[sid].stage) && !Decides(w.heap[sid].stage, w.heap[sid].readBuf)
    && w.heap[sid].addresses.None? && w.heap[sid].job.None?
  }

  /** The selector does not read `fd` any more. */
  ghost predicate Deaf(w: World, fd: Fd) {
    fd in w.table ==> !w.table[fd].interest.read
  }

  lemma UndecidedWaits(w: World, fd: Fd, sid: Sid, b: seq<byte>, io: Io)
    requires Listening(w, fd, sid) && !Decides(w.heap[sid].stage, b)
    ensures Settle(w, fd, sid, b, io) == H(w, sid, b)
  {
    UsersDoNotMatter(b, io.users);
    hide Linkage, Resolution, DecideGreeting, DecideAuth, DecideRequest;
  }

  lemma LinkageH(w: World, sid: Sid, b: seq<byte>)
    requires Linkage(w)
    ensures Linkage(H(w, sid, b))
  {
    var v := H(w, sid, b);
    forall x | x in v.heap ensures Anchored(v, x) { assert Anchored(w, x); }
    forall f | f in v.table ensures Owned(v, f) { assert Owned(w, f); }
  }

  lemma ResolutionH(w: World, sid: Sid, b: seq<byte>)
    requires Resolution(w)
    ensures Resolution(H(w, sid, b))
  {
    var v := H(w, sid, b);
    forall j | 0 <= j < |v.origins| ensures Phase(v, j) { assert Phase(w, j); }
    forall x | x in v.heap ensures OwnRequests(v, x) { assert OwnRequests(w, x); }
    forall x | 0 <= x < |v.hist| ensures OwnAnswer(v, x) { assert OwnAnswer(w, x); }
  }

  /** Leaving the selector does not depend on what was read. */
  lemma DropForgets(w: World, fd: Fd, sid: Sid, b: seq<byte>)
    requires Listening(w, fd, sid)
    ensures Unregister(H(w, sid, b), fd) == Without(w, sid)
  {
    hide Linkage, Resolution, Unregister, Decides;
    LinkageH(w, sid, b);
    ResolutionH(w, sid, b);
    ClientCloseIs(H(w, sid, b), sid, fd, H(w, sid, b));
    assert H(w, sid, b).heap - {sid} == w.heap - {sid};
  }

  lemma PutForgets(w: World, sid: Sid, a: seq<byte>, b: seq<byte>, s: Session)
    ensures Put(H(w, sid, a), sid, s) == Put(H(w, sid, b), sid, s)
  {
    assert Put(H(w, sid, a), sid, s).heap == Put(H(w, sid, b), sid, s).heap;
  }

  lemma RememberForgets(w: World, sid: Sid, ga: Hist, gb: Hist)
    requires ga.(greeting := None, auth := None) == gb.(greeting := None, auth := None)
    ensures Forget(Remember(w, sid, ga), sid) == Forget(Remember(w, sid, gb), sid)
  {
    assert Forget(Remember(w, sid, ga), sid).hist == Forget(Remember(w, sid, gb), sid).hist;
  }

  lemma RememberLater(w: World, sid: Sid, h: Hist, s: Session, fd: Fd, interest: Interest)
    ensures SetInterest(Put(Remember(w, sid, h), sid, s), fd, interest)
            == Remember(SetInterest(Put(w, sid, s), fd, interest), sid, h)
  {
    if sid < |w.hist| {
      PutLater(w, sid, h, s);
      hide Put;
      if fd in w.table {} else {}
    }
  }

  lemma PutLater(w: World, sid: Sid, h: Hist, s: Session)
    requires sid < |w.hist|
    ensures Put(Remember(w, sid, h), sid, s) == Put(w, sid, s).(hist := w.hist[sid := h])
  {
  }

  /** Storing an answer forgets what was read, up to the history. */
  lemma AnswerForgets(w: World, fd: Fd, sid: Sid, a: seq<byte>, b: seq<byte>, s: Session, ga: Hist, gb: Hist)
    requires ga.(greeting := None, auth := None) == gb.(greeting := None, auth := None)
    ensures Forget(SetInterest(Put(Remember(H(w, sid, a), sid, ga), sid, s), fd, WRITE), sid)
            == Forget(SetInterest(Put(Remember(H(w, sid, b), sid, gb), sid, s), fd, WRITE), sid)
  {
    hide Put, Remember, SetInterest, Forget, H;
    RememberLater(H(w, sid, a), sid, ga, s, fd, WRITE);
    RememberLater(H(w, sid, b), sid, gb, s, fd, WRITE);
    PutForgets(w, sid, a, b, s);
    RememberForgets(SetInterest(Put(H(w, sid, a), sid, s), fd, WRITE), sid, ga, gb);
  }

  /** The reply to a decided greeting. */
  ghost function Greeted(s: Session, chosen: byte): Session {
    Answering(s, GreetingResponse(chosen), if chosen == METHOD_USERNAME_PASSWORD then Auth
                                           else if chosen == METHOD_NO_AUTH then Request else Closing)
  }

  lemma GreetingIs(w: World, fd: Fd, sid: Sid, b: seq<byte>, users: UserMap)
    requires sid in w.heap && DecideGreeting(b, users) != GreetingWait
    ensures ReadGreeting(H(w, sid, b), fd, sid, users)
            == if DecideGreeting(b, users).GreetingChoose? then
                 SetInterest(Put(Remember(H(w, sid, b), sid, Past(w, sid).(greeting := Some(Decision(b, users)))),
                                 sid, Greeted(w.heap[sid], DecideGreeting(b, users).chosen)), fd, WRITE)
               else Unregister(H(w, sid, b), fd)
  {
    hide Unregister, SetInterest, Put, Remember, DecideGreeting;
  }

  lemma GreetingForgets(w: World, fd: Fd, sid: Sid, a: seq<byte>, b: seq<byte>, users: UserMap)
    requires Listening(w, fd, sid) && w.heap[sid].stage == Greeting
    requires DecideGreeting(a, users) != GreetingWait && DecideGreeting(b, users) == DecideGreeting(a, users)
    ensures Forget(ReadGreeting(H(w, sid, a), fd, sid, users), sid) == Forget(ReadGreeting(H(w, sid, b), fd, sid, users), sid)
  {
    hide ReadGreeting, Unregister, Without, Linkage, Resolution, Forget, SetInterest, Put, Remember, DecideGreeting, Decides, H, Greeted;
    GreetingIs(w, fd, sid, a, users);
    GreetingIs(w, fd, sid, b, users);
    match DecideGreeting(a, users) {
      case GreetingDrop =>
        DropForgets(w, fd, sid, a);
        DropForgets(w, fd, sid, b);
      case GreetingChoose(chosen) =>
        AnswerForgets(w, fd, sid, a, b, Greeted(w.heap[sid], chosen),
                      Past(w, sid).(greeting := Some(Decision(a, users))), Past(w, sid).(greeting := Some(Decision(b, users))));
    }
  }

  /** The session once its credentials were decided on. */
  ghost function Checked(s: Session, d: AuthOutcome): Session {
    if d.AuthAccept? then Answering(s.(username := d.user), AuthResponse(AUTH_SUCCESS), Request)
    else Answering(s, AuthResponse(AUTH_FAILURE), Closing)
  }

  lemma AuthIs(w: World, fd: Fd, sid: Sid, b: seq<byte>, users: UserMap)
    requires sid in w.heap && DecideAuth(b, users) != AuthWait
    ensures ReadAuth(H(w, sid, b), fd, sid, users)
            == SetInterest(Put(Remember(H(w, sid, b), sid, Past(w, sid).(auth := Some(Decision(b, users)))),
                               sid, Checked(w.heap[sid], DecideAuth(b, users))), fd, WRITE)
  {
    hide SetInterest, Put, Remember, DecideAuth;
  }

  lemma AuthForgets(w: World, fd: Fd, sid: Sid, a: seq<byte>, b: seq<byte>, users: UserMap)
    requires Listening(w, fd, sid) && w.heap[sid].stage == Auth
    requires DecideAuth(a, users) != AuthWait && DecideAuth(b, users) == DecideAuth(a, users)
    ensures Forget(ReadAuth(H(w, sid, a), fd, sid, users), sid) == Forget(ReadAuth(H(w, sid, b), fd, sid, users), sid)
  {
    hide Linkage, Resolution, Forget, SetInterest, Put, Remember, DecideAuth, ReadAuth, H, Checked, Decides;
    AuthIs(w, fd, sid, a, users);
    AuthIs(w, fd, sid, b, users);
    AnswerForgets(w, fd, sid, a, b, Checked(w.heap[sid], DecideAuth(a, users)),
                  Past(w, sid).(auth := Some(Decision(a, users))), Past(w, sid).(auth := Some(Decision(b, users))));
  }

  lemma DiscardingForgets(w: World, sid: Sid, b: seq<byte>)
    ensures Discarding(H(w, sid, b), sid) == Discarding(w, sid)
  {
    assert sid in w.heap ==> Discarding(H(w, sid, b), sid).heap == Discarding(w, sid).heap;
  }

  lemma RequestForgets(w: World, fd: Fd, sid: Sid, a: seq<byte>, b: seq<byte>, io: Io)
    requires Listening(w, fd, sid) && w.heap[sid].stage == Request
    requires DecideRequest(a) != RequestWait && DecideRequest(b) == DecideRequest(a)
    ensures ReadRequest(H(w, sid, a), fd, sid, io) == ReadRequest(H(w, sid, b), fd, sid, io)
  {
    hide Linkage, Resolution, Discarding, Refuse, Begin, SetInterest, DecideRequest, Put;
    match DecideRequest(a) {
      case RequestReject(code) =>
        RefuseH(w, sid, code, false, a);
        RefuseH(w, sid, code, false, b);
        DiscardingForgets(Refuse(w, sid, code, false), sid, a);
        DiscardingForgets(Refuse(w, sid, code, false), sid, b);
      case RequestConnect(request) =>
        BeginH(w, fd, sid, request, io, a);
        BeginH(w, fd, sid, request, io, b);
        DiscardingForgets(Begin(w, fd, sid, request, io), sid, a);
        DiscardingForgets(Begin(w, fd, sid, request, io), sid, b);
    }
  }

  /** Two amounts of input that decide the same lead to the same world, up to the bytes the history remembers. */
  lemma SettleForgets(w: World, fd: Fd, sid: Sid, a: seq<byte>, b: seq<byte>, io: Io)
    requires Listening(w, fd, sid) && a <= b && Decides(w.heap[sid].stage, a)
    ensures Forget(Settle(w, fd, sid, a, io), sid) == Forget(Settle(w, fd, sid, b, io), sid)
  {
    hide Linkage, Resolution, ReadGreeting, ReadAuth, ReadRequest, DecideGreeting, DecideAuth, DecideRequest, Forget;
    DecisionsAreStable(a, b, io.users);
    UsersDoNotMatter(a, io.users);
    match w.heap[sid].stage {
      case Greeting => GreetingForgets(w, fd, sid, a, b, io.users);
      case Auth => AuthForgets(w, fd, sid, a, b, io.users);
      case _ => RequestForgets(w, fd, sid, a, b, io);
    }
  }

  lemma DropDeafens(w: World, fd: Fd)
    ensures Deaf(Unregister(w, fd), fd)
  {
    hide ClientClose, TargetClose;
  }

  lemma AfterStartDeafens(r: Started, fd: Fd, sid: Sid)
    requires sid in r.w.heap
    ensures Deaf(AfterStart(r, fd, sid), fd)
  {
    hide Refuse;
  }

  lemma BeginDeafens(w: World, fd: Fd, sid: Sid, request: ConnectRequest, io: Io)
    requires sid in w.heap && w.heap[sid].addresses.None? && w.heap[sid].job.None?
    ensures Deaf(Begin(w, fd, sid, request, io), fd)
  {
    hide StartConnection, AfterStart, Refuse, Remember;
    var s := w.heap[sid].(lastError := 0, port := request.port, accessLogged := false,
                          destination := if request.atyp == ATYP_DOMAIN then Named(CString(request.address))
                                         else Numeric(request.address));
    var w1 := Put(Remember(w, sid, Past(w, sid).(request := Some(request))), sid, s);
    if request.atyp != ATYP_DOMAIN {
      var address := Address(if request.atyp == ATYP_IPV4 then AF_INET else AF_INET6, request.address, request.port);
      var w2 := Remember(w1, sid, Past(w1, sid).(candidates := [address]));
      assert sid in w2.heap by { RememberApart(w1, sid, Past(w1, sid).(candidates := [address]), sid); }
      AfterStartDeafens(StartConnection(w2, sid, address, FirstAttempt(io.attempts)), fd, sid);
    }
  }

  /** Once its session decided, the descriptor is not read. */
  lemma SettleDeafens(w: World, fd: Fd, sid: Sid, b: seq<byte>, io: Io)
    requires Listening(w, fd, sid) && Decides(w.heap[sid].stage, b)
    ensures Deaf(Settle(w, fd, sid, b, io), fd)
  {
    hide Linkage, Resolution, Unregister, Begin, Refuse, Put, Remember, DecideGreeting, DecideAuth, DecideRequest;
    UsersDoNotMatter(b, io.users);
    DropDeafens(H(w, sid, b), fd);
    if w.heap[sid].stage == Request && DecideRequest(b).RequestConnect? {
      BeginDeafens(H(w, sid, b), fd, sid, DecideRequest(b).request, io);
      DiscardingKeepsTable(Begin(H(w, sid, b), fd, sid, DecideRequest(b).request, io), sid);
      hide Discarding, Deaf;
    }
  }

  lemma DiscardingKeepsTable(w: World, sid: Sid)
    ensures Discarding(w, sid).table == w.table
  {
    if sid in w.heap {} else {}
  }

  // ---------------------------------------------------------------- many reads

  /** `fd` is readable and recv finds `chunk`. */
  ghost function Reading(fd: Fd, chunk: seq<byte>, io: Io): Event {
    Ready(fd, true, false, io.(recv := Received(chunk)), io)
  }

  ghost function Readings(fd: Fd, chunks: seq<seq<byte>>, ios: seq<Io>): seq<Event>
    requires |ios| == |chunks|
  {
    seq(|chunks|, i requires 0 <= i < |chunks| => Reading(fd, chunks[i], ios[i]))
  }

  lemma RecvIsDone(w: World, fd: Fd, sid: Sid, io: Io, recv: Recv)
    ensures ReadRequest(w, fd, sid, io.(recv := recv)) == ReadRequest(w, fd, sid, io)
  {
    hide Refuse, StartConnection, AfterStart, DetachResolver, FreeAddresses, Discarding;
  }

  lemma OneRead(w: World, fd: Fd, sid: Sid, chunk: seq<byte>, io: Io)
    requires Listening(w, fd, sid) && Registered(w, fd, ClientItem, sid) && w.table[fd].interest.read && chunk != []
    ensures Step(w, Reading(fd, chunk, io)) == Settle(w, fd, sid, Take(w.heap[sid].readBuf + chunk, BUFFER_SIZE), io)
  {
    hide Linkage, Resolution, ReadGreeting, ReadAuth, ReadRequest, DecideGreeting, DecideAuth, DecideRequest;
    var s := w.heap[sid];
    UndecidedIsShort(s.readBuf, map[]);
    assert s.readBuf + Take(chunk, BUFFER_SIZE - |s.readBuf|) == Take(s.readBuf + chunk, BUFFER_SIZE);
    RecvIsDone(H(w, sid, Take(s.readBuf + chunk, BUFFER_SIZE)), fd, sid, io, Received(chunk));
  }

  lemma DeafReads(w: World, fd: Fd, chunk: seq<byte>, io: Io)
    requires Deaf(w, fd)
    ensures Step(w, Reading(fd, chunk, io)) == w
  {
    hide Readable;
  }

  lemma WaitingOn(w: World, fd: Fd, sid: Sid, b: seq<byte>)
    requires Listening(w, fd, sid) && !Decides(w.heap[sid].stage, b)
    ensures Listening(H(w, sid, b), fd, sid)
  {
    LinkageH(w, sid, b);
    ResolutionH(w, sid, b);
    hide Linkage, Resolution;
  }

  lemma SettleAgain(w: World, fd: Fd, sid: Sid, a: seq<byte>, b: seq<byte>, io: Io)
    requires sid in w.heap
    ensures Settle(H(w, sid, a), fd, sid, b, io) == Settle(w, fd, sid, b, io)
  {
    hide ReadGreeting, ReadAuth, ReadRequest;
    assert H(H(w, sid, a), sid, b).heap == H(w, sid, b).heap;
  }

  ghost function Collected(w: World, sid: Sid, chunks: seq<seq<byte>>): seq<byte>
    requires sid in w.heap
  {
    Take(w.heap[sid].readBuf + Concat(chunks), BUFFER_SIZE)
  }

  lemma CollectedGrows(w: World, sid: Sid, chunks: seq<seq<byte>>)
    requires sid in w.heap && chunks != [] && Negotiating(w.heap[sid].stage)
    ensures var a := Collected(w, sid, chunks[..|chunks| - 1]); var b := Collected(w, sid, chunks);
            a <= b && (!Decides(w.heap[sid].stage, a) ==> Take(a + chunks[|chunks| - 1], BUFFER_SIZE) == b)
  {
    var n := |chunks| - 1;
    var all := w.heap[sid].readBuf + Concat(chunks[..n]);
    assert w.heap[sid].readBuf + Concat(chunks) == all + chunks[n];
    UndecidedIsShort(Take(all, BUFFER_SIZE), map[]);
    hide DecideGreeting, DecideAuth, DecideRequest;
  }

  lemma DecidesIsStable(stage: Stage, a: seq<byte>, b: seq<byte>)
    requires a <= b && Decides(stage, a)
    ensures Decides(stage, b)
  {
    DecisionsAreStable(a, b, map[]);
    hide DecideGreeting, DecideAuth, DecideRequest;
  }

  /** What `r` is after the input amounted to `b`. */
  ghost predicate Reached(w: World, fd: Fd, sid: Sid, b: seq<byte>, io: Io, r: World)
    requires sid in w.heap
  {
    if Decides(w.heap[sid].stage, b)
    then Deaf(r, fd) && Forget(r, sid) == Forget(Settle(w, fd, sid, b, io), sid)
    else r == H(w, sid, b)
  }

  lemma OneMore(w: World, fd: Fd, sid: Sid, chunks: seq<seq<byte>>, r: World, now: Io, io: Io)
    requires Listening(w, fd, sid) && Registered(w, fd, ClientItem, sid) && w.table[fd].interest.read
    requires chunks != [] && chunks[|chunks| - 1] != []
    requires Reached(w, fd, sid, Collected(w, sid, chunks[..|chunks| - 1]), io, r)
    requires now == io || Decides(w.heap[sid].stage, Collected(w, sid, chunks[..|chunks| - 1]))
             || !Decides(w.heap[sid].stage, Collected(w, sid, chunks))
    ensures var r' := Step(r, Reading(fd, chunks[|chunks| - 1], now)); var b := Collected(w, sid, chunks);
            && Reached(w, fd, sid, b, io, r')
            && (!Decides(w.heap[sid].stage, Collected(w, sid, chunks[..|chunks| - 1])) ==>
                  r' == Settle(w, fd, sid, b, now))
  {
    var n := |chunks| - 1;
    var a, b, stage := Collected(w, sid, chunks[..n]), Collected(w, sid, chunks), w.heap[sid].stage;
    CollectedGrows(w, sid, chunks);
    hide Decides, Settle, Forget, Deaf, Step, Collected, Linkage, Resolution, Reading;
    if Decides(stage, a) {
      DecidesIsStable(stage, a, b);
      DeafReads(r, fd, chunks[n], now);
      SettleForgets(w, fd, sid, a, b, io);
    } else {
      WaitingOn(w, fd, sid, a);
      OneRead(r, fd, sid, chunks[n], now);
      SettleAgain(w, fd, sid, a, b, now);
      if Decides(stage, b) { SettleDeafens(w, fd, sid, b, now); } else { UndecidedWaits(w, fd, sid, b, now); }
    }
  }

  lemma NothingYet(w: World, fd: Fd, sid: Sid, io: Io)
    requires Listening(w, fd, sid)
    ensures Reached(w, fd, sid, Collected(w, sid, []), io, w)
  {
    hide Linkage, Resolution, DecideGreeting, DecideAuth, DecideRequest, Settle;
    UndecidedWhole(w.heap[sid].stage, w.heap[sid].readBuf);
    assert w.heap[sid].readBuf + [] == w.heap[sid].readBuf;
    assert w.heap[sid := w.heap[sid]] == w.heap;
  }

  /** Piece `d` is the first that decides, or the last one when none before it does. */
  ghost predicate Deciding(w: World, sid: Sid, chunks: seq<seq<byte>>, d: nat)
    requires sid in w.heap
  {
    && d < |chunks| && !Decides(w.heap[sid].stage, Collected(w, sid, chunks[..d]))
    && (d < |chunks| - 1 ==> Decides(w.heap[sid].stage, Collected(w, sid, chunks[..d + 1])))
  }

  lemma {:induction false} CollectedMore(w: World, sid: Sid, chunks: seq<seq<byte>>, m: nat)
    requires sid in w.heap && m <= |chunks|
    ensures Collected(w, sid, chunks[..m]) <= Collected(w, sid, chunks)
    decreases |chunks|
  {
    var n := |chunks| - 1;
    if m == |chunks| {
      assert chunks[..m] == chunks;
    } else {
      CollectedMore(w, sid, chunks[..n], m);
      assert chunks[..n][..m] == chunks[..m];
      assert w.heap[sid].readBuf + Concat(chunks) == w.heap[sid].readBuf + Concat(chunks[..n]) + chunks[n];
    }
  }

  /** Before piece `d` nothing is decided, after it everything is. */
  lemma Sides(w: World, sid: Sid, chunks: seq<seq<byte>>, d: nat, n: nat)
    requires sid in w.heap && Deciding(w, sid, chunks, d) && n <= |chunks|
    ensures n <= d ==> !Decides(w.heap[sid].stage, Collected(w, sid, chunks[..n]))
    ensures d < n < |chunks| ==> Decides(w.heap[sid].stage, Collected(w, sid, chunks[..n]))
  {
    hide Decides, Collected;
    var stage := w.heap[sid].stage;
    if n <= d {
      CollectedMore(w, sid, chunks[..d], n);
      assert chunks[..d][..n] == chunks[..n];
      if Decides(stage, Collected(w, sid, chunks[..n])) {
        DecidesIsStable(stage, Collected(w, sid, chunks[..n]), Collected(w, sid, chunks[..d]));
      }
    } else if n < |chunks| {
      CollectedMore(w, sid, chunks[..n], d + 1);
      assert chunks[..n][..d + 1] == chunks[..d + 1];
      DecidesIsStable(stage, Collected(w, sid, chunks[..d + 1]), Collected(w, sid, chunks[..n]));
    }
  }

  /** What the first `n` of a run of reads amount to, when piece `d` decides. */
  lemma {:induction false} Delivered(w: World, fd: Fd, sid: Sid, chunks: seq<seq<byte>>, ios: seq<Io>, d: nat, n: nat)
    requires Listening(w, fd, sid) && Registered(w, fd, ClientItem, sid) && w.table[fd].interest.read
    requires sid in w.heap && |ios| == |chunks| && d < |chunks| && Deciding(w, sid, chunks, d) && n <= |chunks|
    requires forall i | 0 <= i < |chunks| :: chunks[i] != []
    ensures Reached(w, fd, sid, Collected(w, sid, chunks[..n]), ios[d], Run(w, Readings(fd, chunks[..n], ios[..n])))
    ensures n == d + 1 ==> Run(w, Readings(fd, chunks[..n], ios[..n])) == Settle(w, fd, sid, Collected(w, sid, chunks[..n]), ios[d])
    decreases n
  {
    hide Listening, Registered, Decides, Settle, Reached, Step, Collected, Deciding;
    if n == 0 {
      NothingYet(w, fd, sid, ios[d]);
      assert chunks[..0] == [];
    } else {
      var m := n - 1;
      var events := Readings(fd, chunks[..n], ios[..n]);
      assert chunks[..n][..m] == chunks[..m] && ios[..n][..m] == ios[..m];
      assert events[..m] == Readings(fd, chunks[..m], ios[..m]) && events[m] == Reading(fd, chunks[m], ios[m]);
      Delivered(w, fd, sid, chunks, ios, d, m);
      Sides(w, sid, chunks, d, m);
      Sides(w, sid, chunks, d, n);
      OneMore(w, fd, sid, chunks[..n], Run(w, events[..m]), ios[m], ios[d]);
    }
  }

  lemma NegotiatorsListen(w: World, fd: Fd)
    requires Inv(w) && fd in w.table && w.table[fd].kind == ClientItem && w.table[fd].interest.read
    requires w.table[fd].sid in w.heap && Negotiating(w.heap[w.table[fd].sid].stage)
    ensures Listening(w, fd, w.table[fd].sid)
  {
    hide Linkage, Resolution, Accounts, HistOk, Story, DecideRequest;
    Lookup1(w, fd);
    assert SessionOk(w, w.table[fd].sid);
  }

  /** Fragmentation independence: during the negotiation, bytes arriving in any pieces have the effect of the same
      bytes arriving at once when the deciding piece `d` did, whatever the calls returned and whichever users were
      configured when the others came. Only the number of bytes that the history remembers of the decided message may
      differ, and nothing does when the deciding piece is the last. */
  lemma FragmentsAreOneRead(events: seq<Event>, fd: Fd, chunks: seq<seq<byte>>, ios: seq<Io>, d: nat)
    requires |ios| == |chunks|
    ensures var w := Run(START, events);
            fd in w.table && w.table[fd].kind == ClientItem && w.table[fd].interest.read
            && w.table[fd].sid in w.heap && Negotiating(w.heap[w.table[fd].sid].stage)
            && (forall i | 0 <= i < |chunks| :: chunks[i] != []) && Deciding(w, w.table[fd].sid, chunks, d) ==>
              var sid := w.table[fd].sid; var s := w.heap[sid];
              var pieces := Run(w, Readings(fd, chunks, ios)); var whole := Step(w, Reading(fd, Concat(chunks), ios[d]));
              Forget(pieces, sid) == Forget(whole, sid) && (d == |chunks| - 1 ==> pieces == whole)
  {
    hide Inv, Awaited, Run, Step, Settle, Forget, Listening, Decides;
    var w := Run(START, events);
    Reachable(events);
    if fd in w.table && w.table[fd].kind == ClientItem && w.table[fd].interest.read
       && w.table[fd].sid in w.heap && Negotiating(w.heap[w.table[fd].sid].stage)
       && (forall i | 0 <= i < |chunks| :: chunks[i] != []) && Deciding(w, w.table[fd].sid, chunks, d) {
      var sid, n := w.table[fd].sid, |chunks|;
      NegotiatorsListen(w, fd);
      Delivered(w, fd, sid, chunks, ios, d, n);
      assert chunks[..n] == chunks && ios[..n] == ios;
      assert Concat(chunks) != [] by { assert Concat(chunks) == Concat(chunks[..n - 1]) + chunks[n - 1]; }
      OneRead(w, fd, sid, Concat(chunks), ios[d]);
      var b := Collected(w, sid, chunks);
      if !Decides(w.heap[sid].stage, b) { UndecidedWaits(w, fd, sid, b, ios[d]); }
    }
  }

  lemma UndecidedWhole(stage: Stage, b: seq<byte>)
    ensures !Decides(stage, b) ==> Take(b, BUFFER_SIZE) == b
  {
    UndecidedIsShort(b, map[]);
  }
}
