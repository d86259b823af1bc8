/** What one session has read so far matters to nobody else: any handler, run on another session, does the same whatever
    undecided bytes the first one holds, and leaves them alone. */
module Independence {
  import opened Basics
  import opened Socks5
  import opened Proxy
  import opened Invariant
  import opened Teardown
  import opened Local
  import opened RelaySteps
  import opened HandshakeSteps
  import opened Structure
  import ConnectSteps
  import opened RequestSteps
  import opened AnswerSteps
  import opened Isolation
  import opened Handlers
  import opened Fragmentation

  // ---------------------------------------------------------------- the view of another session

  lemma ViewAside(w: World, x: Sid, b: seq<byte>, y: Sid)
    requires Live(w, y) && x != y
    ensures Live(H(w, x, b), y) && ViewOf(H(w, x, b), y) == ViewOf(w, y) && H(w, x, b).heap[y] == w.heap[y]
  {
  }

  lemma CommitAside(w: World, x: Sid, b: seq<byte>, y: Sid, v: View)
    requires Live(w, y) && x != y
    ensures Live(H(w, x, b), y) && Commit(H(w, x, b), y, v) == H(Commit(w, y, v), x, b)
  {
    ViewAside(w, x, b, y);
    assert Commit(H(w, x, b), y, v).heap == H(Commit(w, y, v), x, b).heap;
    if x in w.heap {} else {}
  }

  lemma WithoutAside(w: World, x: Sid, b: seq<byte>, y: Sid)
    requires y in w.heap && x != y
    ensures y in H(w, x, b).heap && Without(H(w, x, b), y) == H(Without(w, y), x, b)
  {
    hide Descriptors, OrphanedJobs, FreedLists, CountedOut;
    assert Without(H(w, x, b), y).heap == H(Without(w, y), x, b).heap;
    ReleasedAside(w, x, b, w.heap[y]);
    if x in w.heap {} else {}
  }

  lemma ReleasedAside(w: World, x: Sid, b: seq<byte>, s: Session)
    ensures OrphanedJobs(H(w, x, b), s) == OrphanedJobs(w, s) && FreedLists(H(w, x, b), s) == FreedLists(w, s)
  {
  }

  /** Undecided bytes of a session that listens. */
  ghost predicate Holds(w: World, x: Sid, b: seq<byte>) {
    && x in w.heap && Negotiating(w.heap[x].stage) && w.heap[x].writeBuf == []
    && !Decides(w.heap[x].stage, b)
  }

  /** The invariant does not care either. */
  lemma InvAside(w: World, x: Sid, b: seq<byte>)
    requires Inv(w) && Holds(w, x, b)
    ensures Inv(H(w, x, b))
  {
    hide Linkage, Resolution, Accounts, HistOk, SessionOk;
    var v := H(w, x, b);
    LinkageH(w, x, b);
    ResolutionH(w, x, b);
    assert Accounts(v) by { AccountsAside(w, x, b); }
    forall y | y in v.heap ensures SessionOk(v, y) {
      if y == x { OwnAside(w, x, b); } else { OtherAside(w, x, b, y); }
    }
  }

  lemma AccountsAside(w: World, x: Sid, b: seq<byte>)
    requires Accounts(w) && x in w.heap
    ensures Accounts(H(w, x, b))
  {
    assert H(w, x, b).heap.Keys == w.heap.Keys;
    assert |H(w, x, b).heap| == |H(w, x, b).heap.Keys| && |w.heap| == |w.heap.Keys|;
  }

  lemma OwnAside(w: World, x: Sid, b: seq<byte>)
    requires Holds(w, x, b) && SessionOk(w, x)
    ensures SessionOk(H(w, x, b), x)
  {
    hide DecideGreeting, DecideAuth, DecideRequest;
  }

  lemma OtherAside(w: World, x: Sid, b: seq<byte>, y: Sid)
    requires y in w.heap && x != y && SessionOk(w, y)
    ensures SessionOk(H(w, x, b), y)
  {
    hide StageOk, Story;
  }

  // ---------------------------------------------------------------- handlers that leave by an exit

  lemma ExitAside(w: World, x: Sid, b: seq<byte>, y: Sid, e: Exit)
    requires InvExcept(w, y) && InvExcept(H(w, x, b), y) && Live(w, y) && x != y && Moved(ViewOf(w, y), e.v)
    ensures Live(H(w, x, b), y) && Apply(H(w, x, b), y, e) == H(Apply(w, y, e), x, b)
  {
    hide InvExcept, Inv, Moved, Commit, CloseConnection, Unregister, Without;
    var v := H(w, x, b);
    ViewAside(w, x, b, y);
    CommitAside(w, x, b, y, e.v);
    CommitKeeps(w, y, e.v);
    CommitKeeps(v, y, e.v);
    assert SameTies(ViewOf(w, y), e.v) by { MovedTies(ViewOf(w, y), e.v); }
    CommitView(w, y, e.v);
    CommitView(v, y, e.v);
    var c := Commit(w, y, e.v);
    match e {
      case Stay(_) =>
      case End(_) =>
        CloseConnectionEnds(c, y);
        CloseConnectionEnds(H(c, x, b), y);
        WithoutAside(c, x, b, y);
      case Drop(_) =>
        UnregisterClientEnds(c, y);
        UnregisterClientEnds(H(c, x, b), y);
        WithoutAside(c, x, b, y);
    }
  }

  /** A handler that leaves both worlds by the same exit does the same to both. */
  lemma LeavesAside(w: World, x: Sid, b: seq<byte>, y: Sid, r: World, r': World, e: Exit)
    requires InvExcept(w, y) && InvExcept(H(w, x, b), y) && x != y && Leaves(w, y, r, e) && Leaves(H(w, x, b), y, r', e)
    ensures r' == H(r, x, b)
  {
    hide InvExcept, Inv, Moved, Apply, H;
    ExitAside(w, x, b, y, e);
  }

  // ---------------------------------------------------------------- starting connections

  lemma PutAside(w: World, x: Sid, b: seq<byte>, y: Sid, s: Session)
    requires x != y
    ensures Put(H(w, x, b), y, s) == H(Put(w, y, s), x, b)
  {
    assert Put(H(w, x, b), y, s).heap == H(Put(w, y, s), x, b).heap;
  }

  lemma RememberAside(w: World, x: Sid, b: seq<byte>, y: Sid, h: Hist)
    ensures Remember(H(w, x, b), y, h) == H(Remember(w, y, h), x, b) && Past(H(w, x, b), y) == Past(w, y)
  {
    if x in w.heap {
      if y < |w.hist| {} else {}
    }
  }

  lemma StoreAside(w: World, x: Sid, b: seq<byte>, y: Sid, h: Hist, s: Session)
    requires x != y
    ensures Put(Remember(H(w, x, b), y, h), y, s) == H(Put(Remember(w, y, h), y, s), x, b)
  {
    hide Put, Remember, H;
    RememberAside(w, x, b, y, h);
    PutAside(Remember(w, y, h), x, b, y, s);
  }

  lemma FieldsAside(w: World, x: Sid, b: seq<byte>, y: Sid)
    requires x != y
    ensures var v := H(w, x, b);
            && v.open == w.open && v.table == w.table && v.lists == w.lists && v.hist == w.hist && v.metrics == w.metrics
            && v.queue == w.queue && v.jobs == w.jobs && v.threads == w.threads && v.origins == w.origins
            && (y in v.heap <==> y in w.heap) && (y in w.heap ==> v.heap[y] == w.heap[y])
    ensures Past(H(w, x, b), y) == Past(w, y)
  {
    if x in w.heap {} else {}
  }

  lemma MetricsAside(w: World, x: Sid, b: seq<byte>, m: Metrics)
    ensures H(w, x, b).(metrics := m) == H(w.(metrics := m), x, b)
  {
    if x in w.heap {} else {}
  }

  lemma LogAccessAside(w: World, x: Sid, b: seq<byte>, y: Sid, success: bool)
    requires x != y && y in w.heap
    ensures LogAccess(H(w, x, b), y, success) == H(LogAccess(w, y, success), x, b) && y in LogAccess(w, y, success).heap
  {
    var s, h := w.heap[y], Past(w, y);
    FieldsAside(w, x, b, y);
    StoreAside(w, x, b, y, h.(records := h.records + [Record(s.username, s.destination, s.port, success)]), s.(accessLogged := true));
    hide H, Remember, HasDestination, Past;
  }

  lemma RefuseAside(w: World, x: Sid, b: seq<byte>, y: Sid, code: byte)
    requires x != y && y in w.heap
    ensures Refuse(H(w, x, b), y, code, true) == H(Refuse(w, y, code, true), x, b)
  {
    hide LogAccess, Put, Remember, RequestResponse, H, Past;
    FieldsAside(w, x, b, y);
    var h := Past(w, y);
    var w0 := Remember(w, y, h.(replies := h.replies + [code]));
    var w1 := w0.(metrics := w.metrics.(failed := w.metrics.failed + 1));
    RememberAside(w, x, b, y, h.(replies := h.replies + [code]));
    MetricsAside(w0, x, b, w.metrics.(failed := w.metrics.failed + 1));
    assert y in w1.heap by { RememberApart(w, y, h.(replies := h.replies + [code]), y); }
    LogAccessAside(w1, x, b, y, false);
    var w2 := LogAccess(w1, y, false);
    FieldsAside(w2, x, b, y);
    PutAside(w2, x, b, y, w2.heap[y].(writeBuf := RequestResponse(code), writeOff := 0, stage := Closing));
  }

  lemma AttemptFailedAside(w: World, x: Sid, b: seq<byte>, y: Sid, address: Address, errno: int)
    requires x != y && y in w.heap
    ensures AttemptFailed(H(w, x, b), y, address, errno)
            == var r := AttemptFailed(w, y, address, errno); Started(H(r.w, x, b), r.ok)
  {
    hide Put, Remember, H, Past;
    FieldsAside(w, x, b, y);
    var h := Past(w, y);
    StoreAside(w, x, b, y, h.(tried := h.tried + [Try(address, Failed(errno))]), w.heap[y].(lastError := errno));
  }

  lemma LaunchedAside(w: World, x: Sid, b: seq<byte>, y: Sid, fd: Fd, address: Address)
    requires x != y && y in w.heap
    ensures y in H(w, x, b).heap && Launched(H(w, x, b), y, fd, address) == H(Launched(w, y, fd, address), x, b)
  {
    hide Put, Remember, H, Past;
    FieldsAside(w, x, b, y);
    var h := Past(w, y);
    var open, table := w.open + {fd}, w.table[fd := Item(TargetItem, WRITE, y)];
    var w1 := Remember(w, y, h.(tried := h.tried + [Try(address, Pending)]));
    RememberAside(w, x, b, y, h.(tried := h.tried + [Try(address, Pending)]));
    LinkH(w1, x, open, table, b);
    PutAside(w1.(open := open, table := table), x, b, y, w.heap[y].(targetFd := Some(fd), stage := Connecting));
  }

  lemma StartConnectionAside(w: World, x: Sid, b: seq<byte>, y: Sid, address: Address, attempt: Attempt)
    requires x != y && y in w.heap
    ensures StartConnection(H(w, x, b), y, address, attempt)
            == var r := StartConnection(w, y, address, attempt); Started(H(r.w, x, b), r.ok)
  {
    hide StartConnection, AttemptFailed, Launched, H;
    FieldsAside(w, x, b, y);
    ConnectionStarts(w, y, address, attempt);
    ConnectionStarts(H(w, x, b), y, address, attempt);
    AttemptFailedAside(w, x, b, y, address, attempt.errno);
    PutAside(w, x, b, y, w.heap[y].(targetFd := None));
    AttemptFailedAside(Abandoned(w, y), x, b, y, address, attempt.errno);
    if attempt.Underway? { LaunchedAside(w, x, b, y, FreshFd(w.open, attempt.fd), address); }
  }

  lemma {:induction false} StartNextAside(w: World, x: Sid, b: seq<byte>, y: Sid, attempts: seq<Attempt>)
    requires x != y && y in w.heap
    ensures StartNext(H(w, x, b), y, attempts) == var r := StartNext(w, y, attempts); Started(H(r.w, x, b), r.ok)
    ensures y in StartNext(w, y, attempts).w.heap
    decreases |w.heap[y].cursor|
  {
    hide StartConnection, StartNext, H, Put;
    var s := w.heap[y];
    FieldsAside(w, x, b, y);
    NextStep(w, y, attempts);
    NextStep(H(w, x, b), y, attempts);
    if s.cursor == [] {
    } else if s.addresses.None? || s.addresses.value !in w.lists {
      FaultAside(w, x, b);
    } else {
      var w1 := Put(w, y, s.(cursor := s.cursor[1..]));
      PutAside(w, x, b, y, s.(cursor := s.cursor[1..]));
      assert y in w1.heap && |w1.heap[y].cursor| < |s.cursor| by { Advanced(w, y); }
      if Usable(s.cursor[0]) {
        StartConnectionAside(w1, x, b, y, s.cursor[0], FirstAttempt(attempts));
        var r := StartConnection(w1, y, s.cursor[0], FirstAttempt(attempts));
        if !r.ok { StartNextAside(r.w, x, b, y, if attempts == [] then [] else attempts[1..]); }
      } else {
        StartNextAside(w1, x, b, y, attempts);
      }
    }
  }

  lemma Advanced(w: World, y: Sid)
    requires y in w.heap && w.heap[y].cursor != []
    ensures var w1 := Put(w, y, w.heap[y].(cursor := w.heap[y].cursor[1..]));
            y in w1.heap && |w1.heap[y].cursor| < |w.heap[y].cursor|
  {
  }

  /** One turn of the loop over the address cursor. */
  lemma NextStep(w: World, y: Sid, attempts: seq<Attempt>)
    requires y in w.heap
    ensures var s := w.heap[y];
            StartNext(w, y, attempts)
            == if s.cursor == [] then Started(w, false)
               else if s.addresses.None? || s.addresses.value !in w.lists then Started(Fault(w), false)
               else
                 var w1 := Put(w, y, s.(cursor := s.cursor[1..]));
                 if !Usable(s.cursor[0]) then StartNext(w1, y, attempts)
                 else
                   var r := StartConnection(w1, y, s.cursor[0], FirstAttempt(attempts));
                   if r.ok then r else StartNext(r.w, y, if attempts == [] then [] else attempts[1..])
  {
    hide StartConnection;
  }

  lemma FaultAside(w: World, x: Sid, b: seq<byte>)
    ensures Fault(H(w, x, b)) == H(Fault(w), x, b)
  {
    if x in w.heap {} else {}
  }

  lemma AfterStartAside(r: Started, x: Sid, b: seq<byte>, fd: Fd, y: Sid)
    requires x != y && y in r.w.heap
    ensures AfterStart(Started(H(r.w, x, b), r.ok), fd, y) == H(AfterStart(r, fd, y), x, b)
  {
    hide Refuse, SetInterest, H;
    FieldsAside(r.w, x, b, y);
    var code := ReplyForErrno(r.w.heap[y].lastError);
    SetInterestH(r.w, x, fd, NOOP, b);
    RefuseAside(r.w, x, b, y, code);
    SetInterestH(Refuse(r.w, y, code, true), x, fd, WRITE, b);
  }

  lemma TargetFailedAside(r: Started, x: Sid, b: seq<byte>, y: Sid)
    requires x != y && y in r.w.heap
    ensures TargetFailed(Started(H(r.w, x, b), r.ok), y) == H(TargetFailed(r, y), x, b)
  {
    hide Refuse, SetInterest, H;
    FieldsAside(r.w, x, b, y);
    var s := r.w.heap[y];
    RefuseAside(r.w, x, b, y, ReplyForErrno(s.lastError));
    if s.clientFd.Some? { SetInterestH(Refuse(r.w, y, ReplyForErrno(s.lastError), true), x, s.clientFd.value, WRITE, b); }
  }

  // ---------------------------------------------------------------- requests

  lemma LookupsAside(w: World, x: Sid, b: seq<byte>, origins: seq<Origin>, jobs: map<Jid, Job>, threads: map<Jid, Thread>)
    ensures H(w, x, b).(origins := origins, jobs := jobs, threads := threads)
            == H(w.(origins := origins, jobs := jobs, threads := threads), x, b)
  {
    if x in w.heap {} else {}
  }

  lemma AskedAside(w: World, x: Sid, b: seq<byte>, y: Sid, name: seq<byte>, port: nat)
    requires x != y && y in w.heap && w.heap[y].clientFd.Some?
    ensures var v := H(w, x, b);
            y in v.heap && v.heap[y].clientFd.Some? && Asked(v, y, name, port) == H(Asked(w, y, name, port), x, b)
  {
    FieldsAside(w, x, b, y);
    var j, s := |w.origins|, w.heap[y];
    var origins := w.origins + [Origin(y, name, port, None)];
    var jobs := w.jobs[j := Job(s.clientFd.value, Some(y), false, EAI_AGAIN, false)];
    var threads := w.threads[j := Lookup];
    LookupsAside(w, x, b, origins, jobs, threads);
    PutAside(w.(origins := origins, jobs := jobs, threads := threads), x, b, y, s.(job := Some(j), stage := Resolving));
    hide H;
  }

  lemma BeginLookupAside(w: World, x: Sid, b: seq<byte>, y: Sid, request: ConnectRequest, io: Io)
    requires x != y && Live(w, y)
    ensures var fd := w.heap[y].clientFd.value;
            BeginLookup(H(w, x, b), fd, y, request, io) == H(BeginLookup(w, fd, y, request, io), x, b)
  {
    var fd := w.heap[y].clientFd.value;
    ViewAside(w, x, b, y);
    FieldsAside(w, x, b, y);
    if io.resolverStarts {
      hide BeginLookup, SetInterest, CString, H, Asked, Commit;
      BeginLookupIs(w, y, request, io);
      BeginLookupIs(H(w, x, b), y, request, io);
      AskedAside(w, x, b, y, CString(request.address), request.port);
      var a, v := Asked(w, y, CString(request.address), request.port), LookingUp(ViewOf(w, y), |w.origins|);
      CommitAside(a, x, b, y, v);
      SetInterestH(Commit(a, y, v), x, fd, NOOP, b);
    } else {
      hide Refuse, SetInterest, H;
      RefuseAside(w, x, b, y, REPLY_GENERAL_FAILURE);
      SetInterestH(Refuse(w, y, REPLY_GENERAL_FAILURE, true), x, fd, WRITE, b);
    }
  }

  lemma BeginAside(w: World, x: Sid, b: seq<byte>, y: Sid, request: ConnectRequest, io: Io)
    requires x != y && Live(w, y) && w.heap[y].addresses.None? && w.heap[y].job.None?
    ensures var fd := w.heap[y].clientFd.value;
            Begin(H(w, x, b), fd, y, request, io) == H(Begin(w, fd, y, request, io), x, b)
  {
    hide Begin, BeginLookup, StartConnection, AfterStart, Commit, H;
    var fd, v := w.heap[y].clientFd.value, ViewOf(w, y);
    ViewAside(w, x, b, y);
    BeginIs(w, y, request, io);
    BeginIs(H(w, x, b), y, request, io);
    if request.atyp == ATYP_DOMAIN {
      CommitAside(w, x, b, y, WithRequest(v, request));
      CommitView(w, y, WithRequest(v, request));
      BeginLookupAside(Commit(w, y, WithRequest(v, request)), x, b, y, request, io);
    } else {
      CommitAside(w, x, b, y, WithCandidate(v, request));
      CommitView(w, y, WithCandidate(v, request));
      var w1 := Commit(w, y, WithCandidate(v, request));
      StartConnectionAside(w1, x, b, y, Literal(request), FirstAttempt(io.attempts));
      var r := StartConnection(w1, y, Literal(request), FirstAttempt(io.attempts));
      AfterStartAside(r, x, b, fd, y);
    }
  }

  lemma DiscardingAside(w: World, x: Sid, b: seq<byte>, y: Sid)
    requires x != y
    ensures Discarding(H(w, x, b), y) == H(Discarding(w, y), x, b)
  {
    FieldsAside(w, x, b, y);
    if y in w.heap { PutAside(w, x, b, y, w.heap[y].(readBuf := [])); } else { FaultAside(w, x, b); }
    hide H, Put;
  }

  // ---------------------------------------------------------------- the handlers

  /** Session `y` is in good order in both worlds. */
  ghost predicate Both(w: World, x: Sid, b: seq<byte>, y: Sid) {
    && x != y && InvExcept(w, y) && InvExcept(H(w, x, b), y) && Live(w, y) && Good(ViewOf(w, y))
  }

  lemma RequestAside(w: World, x: Sid, b: seq<byte>, y: Sid, got: seq<byte>, io: Io)
    requires x != y && Live(w, y) && w.heap[y].addresses.None? && w.heap[y].job.None?
    ensures var s := w.heap[y]; var s1 := s.(readBuf := s.readBuf + got); var fd := s.clientFd.value;
            ReadRequest(Put(H(w, x, b), y, s1), fd, y, io) == H(ReadRequest(Put(w, y, s1), fd, y, io), x, b)
  {
    hide Begin, Refuse, Discarding, SetInterest, DecideRequest, H, Commit;
    var v, fd := ViewOf(w, y), w.heap[y].clientFd.value;
    var v1 := Longer(v, got);
    var w1 := Put(w, y, v1.s);
    ViewAside(w, x, b, y);
    PutAside(w, x, b, y, v1.s);
    FieldsAside(w1, x, b, y);
    match DecideRequest(v1.s.readBuf) {
      case RequestWait =>
      case RequestReject(code) =>
        RejectIs(w, fd, y, got, code);
        RejectIs(H(w, x, b), fd, y, got, code);
        CommitAside(w, x, b, y, Refused(v1, code));
      case RequestConnect(request) =>
        PutIs(w, y, v1.s);
        CommitView(w, y, v1);
        BeginAside(w1, x, b, y, request, io);
        DiscardingAside(Begin(w1, fd, y, request, io), x, b, y);
    }
  }

  lemma NegotiationAside(w: World, x: Sid, b: seq<byte>, y: Sid, got: seq<byte>, io: Io)
    requires Both(w, x, b, y) && NoReply(w.heap[y]) && (w.heap[y].stage == Greeting || w.heap[y].stage == Auth)
    ensures var s := w.heap[y]; var s1 := s.(readBuf := s.readBuf + got); var fd := s.clientFd.value;
            && (s.stage == Greeting ==> ReadGreeting(Put(H(w, x, b), y, s1), fd, y, io.users)
                                        == H(ReadGreeting(Put(w, y, s1), fd, y, io.users), x, b))
            && (s.stage == Auth ==> ReadAuth(Put(H(w, x, b), y, s1), fd, y, io.users)
                                    == H(ReadAuth(Put(w, y, s1), fd, y, io.users), x, b))
  {
    hide InvExcept, Good, ReadGreeting, ReadAuth, Moved, Apply, GreetingRead, AuthRead, H, Settled, Put;
    var v, fd := ViewOf(w, y), w.heap[y].clientFd.value;
    ViewAside(w, x, b, y);
    if v.s.stage == Greeting {
      GreetingFollows(v, got, io.users);
      ReadGreetingIs(w, fd, y, got, io.users);
      ReadGreetingIs(H(w, x, b), fd, y, got, io.users);
      ExitAside(w, x, b, y, GreetingRead(Longer(v, got), io.users));
    } else {
      AuthFollows(v, got, io.users);
      ReadAuthIs(w, fd, y, got, io.users);
      ReadAuthIs(H(w, x, b), fd, y, got, io.users);
      ExitAside(w, x, b, y, AuthRead(Longer(v, got), io.users));
    }
  }

  lemma CloseAside(w: World, x: Sid, b: seq<byte>, y: Sid)
    requires Both(w, x, b, y)
    ensures CloseConnection(H(w, x, b), y) == H(CloseConnection(w, y), x, b)
  {
    hide InvExcept, Good, CloseConnection, Without, H;
    FieldsAside(w, x, b, y);
    CloseConnectionEnds(w, y);
    CloseConnectionEnds(H(w, x, b), y);
    WithoutAside(w, x, b, y);
  }

  lemma SoundAside(w: World, x: Sid, b: seq<byte>, y: Sid)
    requires Both(w, x, b, y)
    ensures Sound(w, y) && Sound(H(w, x, b), y) && Live(H(w, x, b), y) && ViewOf(H(w, x, b), y) == ViewOf(w, y)
    ensures H(w, x, b).heap[y] == w.heap[y]
  {
    hide InvExcept, Good, H;
    ViewAside(w, x, b, y);
    SoundFromGood(w, y);
    SoundFromGood(H(w, x, b), y);
  }

  lemma ClientReadAside(w: World, x: Sid, b: seq<byte>, y: Sid, fd: Fd, io: Io)
    requires Both(w, x, b, y) && w.heap[y].clientFd == Some(fd) && ClientInterest(w, y).read
    ensures ClientRead(H(w, x, b), fd, y, io) == H(ClientRead(w, fd, y, io), x, b)
  {
    hide InvExcept, Good, Sound, Undecided, ClientReadRelay, ReadGreeting, ReadAuth, ReadRequest, CloseConnection, H, Leaves, UpRead;
    var v := ViewOf(w, y);
    ReadArmed(v);
    SoundAside(w, x, b, y);
    if v.s.stage == Relay {
      ReadRelayLeaves(w, fd, y, io);
      ReadRelayLeaves(H(w, x, b), fd, y, io);
      LeavesAside(w, x, b, y, ClientReadRelay(w, fd, y, io), ClientReadRelay(H(w, x, b), fd, y, io), UpRead(v, io));
    } else if io.recv.RecvFailed? {
      CloseAside(w, x, b, y);
    } else if io.recv.Received? {
      var got := Take(io.recv.bytes, BUFFER_SIZE - |v.s.readBuf|);
      if got == [] {
        CloseAside(w, x, b, y);
      } else if v.s.stage == Request {
        assert v.s.addresses.None? && v.s.job.None? by { RequestIsBare(v); }
        RequestAside(w, x, b, y, got, io);
      } else {
        NegotiationAside(w, x, b, y, got, io);
      }
    }
  }

  lemma ClientWriteAside(w: World, x: Sid, b: seq<byte>, y: Sid, fd: Fd, sends: seq<Send>)
    requires Both(w, x, b, y) && w.heap[y].clientFd == Some(fd) && ClientInterest(w, y).write
    ensures ClientWrite(H(w, x, b), fd, y, sends) == H(ClientWrite(w, fd, y, sends), x, b)
  {
    hide InvExcept, Good, Sound, ClientWrite, H, Leaves, Written;
    var v := ViewOf(w, y);
    WriteArmed(v);
    SoundAside(w, x, b, y);
    WriteLeaves(w, fd, y, sends);
    WriteLeaves(H(w, x, b), fd, y, sends);
    LeavesAside(w, x, b, y, ClientWrite(w, fd, y, sends), ClientWrite(H(w, x, b), fd, y, sends), Written(v, sends));
  }

  lemma TargetReadAside(w: World, x: Sid, b: seq<byte>, y: Sid, fd: Fd, io: Io)
    requires Both(w, x, b, y) && w.heap[y].targetFd == Some(fd) && w.table[fd].interest.read
    ensures TargetRead(H(w, x, b), fd, y, io) == H(TargetRead(w, fd, y, io), x, b)
  {
    hide InvExcept, Good, Sound, TargetRead, H, Leaves, DownRead;
    var v := ViewOf(w, y);
    TargetArmed(v);
    SoundAside(w, x, b, y);
    TargetReadLeaves(w, fd, y, io);
    TargetReadLeaves(H(w, x, b), fd, y, io);
    LeavesAside(w, x, b, y, TargetRead(w, fd, y, io), TargetRead(H(w, x, b), fd, y, io), DownRead(v, io));
  }

  lemma DetachedAside(w: World, x: Sid, b: seq<byte>, y: Sid)
    requires x != y && y in w.heap && w.heap[y].targetFd.Some?
    ensures var v := H(w, x, b); y in v.heap && v.heap[y].targetFd.Some? && Detached(v, y) == H(Detached(w, y), x, b)
  {
    FieldsAside(w, x, b, y);
    var t := w.heap[y].targetFd.value;
    LinkH(w, x, w.open - {t}, w.table - {t}, b);
    PutAside(w.(open := w.open - {t}, table := w.table - {t}), x, b, y, w.heap[y].(targetFd := None));
    hide H;
  }

  /** The pending attempt failed, in both worlds. */
  lemma AttemptOverAside(w: World, x: Sid, b: seq<byte>, y: Sid, errno: int)
    requires Both(w, x, b, y) && ConnectingView(ViewOf(w, y))
    ensures w.heap[y].targetFd.Some?
    ensures var s := w.heap[y]; var t := s.targetFd.value; var s1 := s.(lastError := errno);
            var r := Unregister(Put(MarkLastTry(w, y, Failed(errno)), y, s1), t);
            y in r.heap && Unregister(Put(MarkLastTry(H(w, x, b), y, Failed(errno)), y, s1), t) == H(r, x, b)
  {
    hide InvExcept, Good, ConnectingView, Unregister, MarkLastTry, Commit, Detached, HistOk, MetersMatch, ConnectSteps.Trying, H, Marked;
    var v, v0 := H(w, x, b), ViewOf(w, y);
    ConnectingIdle(v0);
    ViewAside(w, x, b, y);
    LastFailedMoves(v0, errno);
    LastFailedIs(w, y, errno);
    LastFailedIs(v, y, errno);
    var v1 := LastFailed(v0, errno);
    CommitAside(w, x, b, y, v1);
    CommitKeeps(w, y, v1);
    CommitKeeps(v, y, v1);
    CommitView(w, y, v1);
    CommitView(v, y, v1);
    var c := Commit(w, y, v1);
    OpenIsRegistered(c, y);
    OpenIsRegistered(H(c, x, b), y);
    DetachedView(c, y);
    DetachedView(H(c, x, b), y);
    DetachedAside(c, x, b, y);
  }

  lemma ConnectingAside(w: World, x: Sid, b: seq<byte>, y: Sid, io: Io)
    requires Both(w, x, b, y) && ConnectingView(ViewOf(w, y))
    ensures w.heap[y].targetFd.Some?
    ensures var fd := w.heap[y].targetFd.value; TargetWrite(H(w, x, b), fd, y, io) == H(TargetWrite(w, fd, y, io), x, b)
  {
    hide InvExcept, Good, ConnectingView, Unregister, MarkLastTry, Commit, TargetConnected, TargetFailed, StartNext, H, Put, Succeeded;
    var v := ViewOf(w, y);
    ConnectingIdle(v);
    FieldsAside(w, x, b, y);
    ViewAside(w, x, b, y);
    if io.soError == Reported(0) {
      assert v.h.tried != [] by { SucceededHist(v); }
      TargetConnectedIs(w, y);
      TargetConnectedIs(H(w, x, b), y);
      CommitAside(w, x, b, y, Succeeded(v));
    } else {
      var errno := if io.soError.Reported? then io.soError.error else io.soError.errno;
      AttemptOverAside(w, x, b, y, errno);
      var r := Unregister(Put(MarkLastTry(w, y, Failed(errno)), y, v.s.(lastError := errno)), v.s.targetFd.value);
      FieldsAside(r, x, b, y);
      StartNextAside(r, x, b, y, io.attempts);
      TargetFailedAside(StartNext(r, y, io.attempts), x, b, y);
    }
  }

  lemma TargetWriteAside(w: World, x: Sid, b: seq<byte>, y: Sid, fd: Fd, io: Io)
    requires Both(w, x, b, y) && w.heap[y].targetFd == Some(fd) && w.table[fd].interest.write
    ensures TargetWrite(H(w, x, b), fd, y, io) == H(TargetWrite(w, fd, y, io), x, b)
  {
    hide InvExcept, Good, Sound, TargetFlush, H, Leaves, UpFlushed;
    var v := ViewOf(w, y);
    TargetArmed(v);
    SoundAside(w, x, b, y);
    if v.s.stage == Connecting {
      ConnectingAside(w, x, b, y, io);
    } else {
      FlushLeaves(w, y, io.sends);
      FlushLeaves(H(w, x, b), y, io.sends);
      LeavesAside(w, x, b, y, TargetFlush(w, y, io.sends), TargetFlush(H(w, x, b), y, io.sends), UpFlushed(v, io.sends));
    }
  }

  // ---------------------------------------------------------------- answers of lookups

  lemma TakenAside(w: World, x: Sid, b: seq<byte>, y: Sid)
    requires x != y && y in w.heap && w.heap[y].job.Some? && w.heap[y].job.value in w.jobs
    ensures var v := H(w, x, b);
            && y in v.heap && v.heap[y] == w.heap[y] && v.jobs == w.jobs && Taken(v, y) == H(Taken(w, y), x, b)
  {
    FieldsAside(w, x, b, y);
    var j, s := w.heap[y].job.value, Taken(w, y).heap[y];
    LookupsAside(w, x, b, w.origins, w.jobs - {j}, w.threads);
    PutAside(w.(jobs := w.jobs - {j}), x, b, y, s);
    hide H;
  }

  lemma PoppedAside(w: World, x: Sid, b: seq<byte>)
    requires w.queue != []
    ensures H(w, x, b).queue == w.queue && Popped(H(w, x, b)) == H(Popped(w), x, b)
  {
    if x in w.heap {} else {}
  }

  lemma TakeAnswerAside(w: World, x: Sid, b: seq<byte>, y: Sid, j: Jid, io: Io)
    requires x != y && Live(w, y) && w.heap[y].job == Some(j) && j in w.jobs
    requires w.jobs[j].result ==> w.jobs[j].status == 0 && j in w.lists
    requires w.heap[y].addresses.None? && w.heap[y].cursor == []
    ensures var fd := w.heap[y].clientFd.value;
            TakeAnswer(H(w, x, b), fd, y, j, io) == H(TakeAnswer(w, fd, y, j, io), x, b)
  {
    hide TakeAnswer, Refuse, SetInterest, StartNext, AfterStart, Commit, H, Taken;
    var v, fd := H(w, x, b), w.heap[y].clientFd.value;
    FieldsAside(w, x, b, y);
    ViewAside(w, x, b, y);
    TakeAnswerIs(w, y, j, io);
    TakeAnswerIs(v, y, j, io);
    TakenAside(w, x, b, y);
    var t := Taken(w, y);
    ViewAside(t, x, b, y);
    if !w.jobs[j].result {
      var code := ReplyForGaiError(w.jobs[j].status);
      RefuseAside(t, x, b, y, code);
      SetInterestH(Refuse(t, y, code, true), x, fd, WRITE, b);
    } else {
      var v1 := Resolved(ViewOf(t, y), j, w.lists[j]);
      CommitAside(t, x, b, y, v1);
      var c := Commit(t, y, v1);
      assert y in c.heap by { CommittedStays(t, y, v1); }
      StartNextAside(c, x, b, y, io.attempts);
      AfterStartAside(StartNext(c, y, io.attempts), x, b, fd, y);
    }
  }

  lemma CommittedStays(w: World, y: Sid, v: View)
    requires Live(w, y)
    ensures y in Commit(w, y, v).heap
  {
  }
}
