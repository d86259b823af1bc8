/** What each event does: the handlers of ready descriptors, the resolver threads, a notification, a new connection. */
module Handlers {
  import opened Basics
  import opened Socks5
  import opened Proxy
  import opened Invariant
  import opened Frames
  import opened Teardown
  import opened Local
  import opened RelaySteps
  import opened HandshakeSteps
  import opened Structure
  import opened ConnectSteps
  import opened RequestSteps
  import opened AnswerSteps
  import opened Isolation

  // ---------------------------------------------------------------- handlers of a ready descriptor

  lemma CommitIsolated(w: World, sid: Sid, v: View, x: Sid)
    requires Live(w, sid) && x != sid
    ensures Apart(w, Commit(w, sid, v), x)
  {
  }

  lemma WithoutIsolated(w: World, sid: Sid, x: Sid)
    requires sid in w.heap && x != sid
    ensures SameAt(w, Without(w, sid), x) && (w.heap[sid].job.None? ==> SameWork(w, Without(w, sid)))
  {
    if w.heap[sid].job.None? { assert w.jobs - {} == w.jobs; }
  }

  lemma LeavesIsolated(w: World, sid: Sid, r: World, e: Exit, x: Sid)
    requires InvExcept(w, sid) && Leaves(w, sid, r, e) && x != sid
    ensures SameAt(w, r, x) && (w.heap[sid].job.None? ==> SameWork(w, r))
  {
    hide InvExcept, Inv, Settled, HistOk, MetersMatch, CloseConnection, Unregister, Commit, Without;
    CommitKeeps(w, sid, e.v);
    CommitView(w, sid, e.v);
    CommitIsolated(w, sid, e.v, x);
    var w' := Commit(w, sid, e.v);
    WithoutIsolated(w', sid, x);
    match e {
      case Stay(v) =>
      case End(v) => CloseConnectionEnds(w', sid);
      case Drop(v) => UnregisterClientEnds(w', sid);
    }
  }

  /** The handler kept the invariant, changed no other session, and touched no lookup but one it started. */
  ghost predicate Fine(w: World, r: World, sid: Sid) {
    Inv(r) && Isolated(w, r, sid) && (sid in w.heap && w.heap[sid].job.None? ==> Work(w, r, sid))
  }

  lemma LeavesKeeps(w: World, sid: Sid, r: World, e: Exit)
    requires InvExcept(w, sid) && Leaves(w, sid, r, e)
    ensures Fine(w, r, sid)
  {
    hide InvExcept, Inv, Apply, Settled, Moved;
    ApplyKeeps(w, sid, e);
    LeavesIsolated(w, sid, r, e, sid + 1);
    forall x | x != sid ensures SameAt(w, r, x) { LeavesIsolated(w, sid, r, e, x); }
  }

  lemma BeginIsolated(w: World, sid: Sid, request: ConnectRequest, io: Io, x: Sid)
    requires Live(w, sid) && w.heap[sid].addresses.None? && w.heap[sid].job.None? && x != sid
    ensures var r := Begin(w, w.heap[sid].clientFd.value, sid, request, io); SameAt(w, r, x) && Work(w, r, sid)
  {
    hide Begin, BeginLookup, StartConnection, AfterStart, Commit;
    BeginIs(w, sid, request, io);
    var v := ViewOf(w, sid);
    var fd := v.s.clientFd.value;
    CommitIsolated(w, sid, WithRequest(v, request), x);
    CommitIsolated(w, sid, WithCandidate(v, request), x);
    BeginLookupIsolated(Commit(w, sid, WithRequest(v, request)), fd, sid, request, io, x);
    var w1 := Commit(w, sid, WithCandidate(v, request));
    StartConnectionIsolated(w1, sid, Literal(request), FirstAttempt(io.attempts), x);
    AfterStartIsolated(StartConnection(w1, sid, Literal(request), FirstAttempt(io.attempts)), fd, sid, x);
  }

  /** Which states have the client's read interest armed. */
  lemma ReadArmed(v: View)
    requires Good(v) && v.client.read
    ensures v.s.stage == Greeting || v.s.stage == Auth || v.s.stage == Request
            || (v.s.stage == Relay && RelayShape(v.s) && v.s.c2t == [])
    ensures v.s.stage != Relay ==> NoReply(v.s) && Undecided(v.s) && |v.s.readBuf| <= 512 && v.client == READ
  {
    UndecidedIsShort(v.s.readBuf, map[]);
  }

  lemma RequestIsBare(v: View)
    requires Good(v) && v.s.stage == Request
    ensures v.s.addresses.None? && v.s.job.None?
  {
  }

  lemma SettledIsGood(w: World, y: Sid)
    requires Live(w, y) && Settled(ViewOf(w, y)) && HistOk(w.hist[y])
    ensures Good(ViewOf(w, y))
  {
  }

  lemma AtRequestAgain(v: View, got: seq<byte>)
    requires Good(v) && v.s.stage == Request && NoReply(v.s)
    ensures AtRequest(Longer(v, got))
  {
  }

  /** client_read in the request stage, once the read buffer holds the new bytes. */
  lemma ReadRequestKeeps(w: World, sid: Sid, got: seq<byte>, io: Io)
    requires InvExcept(w, sid) && Live(w, sid) && Good(ViewOf(w, sid))
    requires w.heap[sid].stage == Request && NoReply(w.heap[sid]) && ClientInterest(w, sid) == READ
    ensures var s := w.heap[sid];
            Fine(w, ReadRequest(Put(w, sid, s.(readBuf := s.readBuf + got)), s.clientFd.value, sid, io), sid)
  {
    hide InvExcept, Inv, Good, Begin, Refuse, Apply, Moved, StageOk, Story, AtRequest, SetInterest;
    var v := ViewOf(w, sid);
    var fd := v.s.clientFd.value;
    var v1 := Longer(v, got);
    LongerMoves(v, got);
    PutIs(w, sid, v1.s);
    CommitKeeps(w, sid, v1);
    CommitView(w, sid, v1);
    var w1 := Put(w, sid, v1.s);
    match DecideRequest(v1.s.readBuf) {
      case RequestWait =>
        WaitSettles(v, got);
        StayKeeps(w, sid, v1);
      case RequestReject(code) =>
        RejectKeeps(w, sid, got, code);
      case RequestConnect(request) =>
        AtRequestAgain(v, got);
        ConnectKeeps(w1, sid, request, io);
        FineAfter(w, w1, Discarding(Begin(w1, fd, sid, request, io), sid), sid);
    }
  }

  lemma FineAfter(w: World, w1: World, r: World, sid: Sid)
    requires sid in w.heap && sid in w1.heap && w1 == Put(w, sid, w1.heap[sid]) && w1.heap[sid].job == w.heap[sid].job
    requires Fine(w1, r, sid)
    ensures Fine(w, r, sid)
  {
    hide Inv;
    forall x | x != sid ensures SameAt(w, r, x) { assert SameAt(w1, r, x); }
  }

  lemma RejectKeeps(w: World, sid: Sid, got: seq<byte>, code: byte)
    requires InvExcept(w, sid) && Live(w, sid) && Good(ViewOf(w, sid))
    requires w.heap[sid].stage == Request && NoReply(w.heap[sid]) && code in {1, 7, 8}
    ensures var w1 := Put(w, sid, Longer(ViewOf(w, sid), got).s);
            Fine(w, SetInterest(Discarding(Refuse(w1, sid, code, false), sid), w.heap[sid].clientFd.value, WRITE), sid)
  {
    hide InvExcept, Inv, Good, Refuse, Apply, Moved, Settled, SetInterest;
    var v := ViewOf(w, sid);
    RefusedFollows(v, got, code);
    RejectIs(w, v.s.clientFd.value, sid, got, code);
    CommitKeeps(w, sid, Refused(Longer(v, got), code));
    CommitView(w, sid, Refused(Longer(v, got), code));
    StayKeeps(w, sid, Refused(Longer(v, got), code));
  }

  lemma ConnectKeeps(w: World, sid: Sid, request: ConnectRequest, io: Io)
    requires InvExcept(w, sid) && Live(w, sid) && AtRequest(ViewOf(w, sid))
    ensures Fine(w, Discarding(Begin(w, w.heap[sid].clientFd.value, sid, request, io), sid), sid)
  {
    hide InvExcept, Inv, Begin, AtRequest;
    BeginKeeps(w, sid, request, io);
    var r := Begin(w, w.heap[sid].clientFd.value, sid, request, io);
    DiscardingKeeps(r, sid);
    AtRequestIsBare(ViewOf(w, sid));
    DiscardingApart(r, sid);
    BeginIsolated(w, sid, request, io, sid + 1);
    forall x | x != sid ensures SameAt(w, Discarding(r, sid), x) { BeginIsolated(w, sid, request, io, x); }
  }

  lemma DiscardingApart(w: World, sid: Sid)
    requires sid in w.heap
    ensures SameWork(w, Discarding(w, sid)) && sid in Discarding(w, sid).heap
    ensures Discarding(w, sid).heap[sid].job == w.heap[sid].job && forall x | x != sid :: SameAt(w, Discarding(w, sid), x)
  {
  }

  lemma LongerMoves(v: View, got: seq<byte>)
    requires Good(v)
    ensures Moved(v, Longer(v, got))
  {
  }

  lemma WaitSettles(v: View, got: seq<byte>)
    requires Good(v) && v.s.stage == Request && NoReply(v.s) && v.client == READ
    requires DecideRequest(Longer(v, got).s.readBuf) == RequestWait
    ensures Settled(Longer(v, got))
  {
  }

  lemma BeginKeeps(w: World, sid: Sid, request: ConnectRequest, io: Io)
    requires InvExcept(w, sid) && Live(w, sid) && AtRequest(ViewOf(w, sid))
    ensures NearlyDone(Begin(w, w.heap[sid].clientFd.value, sid, request, io), sid)
  {
    hide InvExcept, AtRequest, Begin;
    if request.atyp == ATYP_DOMAIN { BeginNameKeeps(w, sid, request, io); }
    else { BeginAddressKeeps(w, sid, request, io); }
  }

  lemma DiscardingKeeps(w: World, sid: Sid)
    requires NearlyDone(w, sid)
    ensures Inv(Discarding(w, sid))
  {
    var v := ViewOf(w, sid).(s := w.heap[sid].(readBuf := []));
    PutIs(w, sid, v.s);
    NearlyMoves(w, sid);
    hide InvExcept, Inv, Settled;
    CommitKeeps(w, sid, v);
    CommitView(w, sid, v);
    StayKeeps(w, sid, v);
  }

  lemma NearlyMoves(w: World, sid: Sid)
    requires InvExcept(w, sid) && Live(w, sid)
    ensures Moved(ViewOf(w, sid), ViewOf(w, sid).(s := w.heap[sid].(readBuf := [])))
  {
    assert HistOk(w.hist[sid]);
  }

  ghost predicate Ready0(w: World, sid: Sid, fd: Fd) {
    InvExcept(w, sid) && Live(w, sid) && Good(ViewOf(w, sid)) && w.heap[sid].clientFd == Some(fd)
  }

  lemma SoundFromGood(w: World, sid: Sid)
    requires Live(w, sid) && Good(ViewOf(w, sid))
    ensures Sound(w, sid)
  {
  }

  /** client_read whenever the read interest is armed; in particular the stale errno test is never reached. */
  lemma ClientReadKeeps(w: World, fd: Fd, sid: Sid, io: Io)
    requires Ready0(w, sid, fd) && ClientInterest(w, sid).read
    ensures Fine(w, ClientRead(w, fd, sid, io), sid)
  {
    hide InvExcept, Inv, Good, Sound, Settled, Undecided, ClientReadRelay, ReadGreeting, ReadAuth, ReadRequest,
      CloseConnection, Moved, Commit;
    var v := ViewOf(w, sid);
    ReadArmed(v);
    SoundFromGood(w, sid);
    CommitNothing(w, sid);
    GoodMoves(v);
    var s := v.s;
    if s.stage == Relay {
      ReadRelayLeaves(w, fd, sid, io);
      LeavesKeeps(w, sid, ClientReadRelay(w, fd, sid, io), UpRead(v, io));
    } else if io.recv.RecvBlocked? {
      LeavesKeeps(w, sid, w, Stay(v));
    } else if io.recv.RecvFailed? {
      LeavesKeeps(w, sid, CloseConnection(w, sid), End(v));
    } else {
      var got := Take(io.recv.bytes, BUFFER_SIZE - |s.readBuf|);
      if got == [] {
        LeavesKeeps(w, sid, CloseConnection(w, sid), End(v));
      } else {
        HandshakeReadKeeps(w, fd, sid, got, io);
      }
    }
  }

  lemma GoodMoves(v: View)
    requires Good(v)
    ensures Moved(v, v) && Settled(v)
  {
  }

  lemma HandshakeReadKeeps(w: World, fd: Fd, sid: Sid, got: seq<byte>, io: Io)
    requires Ready0(w, sid, fd) && ClientInterest(w, sid) == READ && NoReply(w.heap[sid])
    requires w.heap[sid].stage == Greeting || w.heap[sid].stage == Auth || w.heap[sid].stage == Request
    ensures var s := w.heap[sid]; var w1 := Put(w, sid, s.(readBuf := s.readBuf + got));
            Fine(w, if s.stage == Greeting then ReadGreeting(w1, fd, sid, io.users)
                    else if s.stage == Auth then ReadAuth(w1, fd, sid, io.users) else ReadRequest(w1, fd, sid, io), sid)
  {
    hide InvExcept, Inv, Good, ReadGreeting, ReadAuth, ReadRequest, Moved, StageOk, Story, HistOk, GreetingRead, AuthRead, Apply;
    var v := ViewOf(w, sid);
    if v.s.stage == Greeting {
      GreetingFollows(v, got, io.users);
      ReadGreetingIs(w, fd, sid, got, io.users);
      LeavesKeeps(w, sid, ReadGreeting(Put(w, sid, Longer(v, got).s), fd, sid, io.users), GreetingRead(Longer(v, got), io.users));
    } else if v.s.stage == Auth {
      AuthFollows(v, got, io.users);
      ReadAuthIs(w, fd, sid, got, io.users);
      LeavesKeeps(w, sid, ReadAuth(Put(w, sid, Longer(v, got).s), fd, sid, io.users), AuthRead(Longer(v, got), io.users));
    } else {
      ReadRequestKeeps(w, sid, got, io);
    }
  }

  /** Which states have the client's write interest armed. */
  lemma WriteArmed(v: View)
    requires Good(v) && v.client.write
    ensures ReplyPending(v.s) || RelayShape(v.s)
  {
  }

  lemma ClientWriteKeeps(w: World, fd: Fd, sid: Sid, sends: seq<Send>)
    requires Ready0(w, sid, fd) && ClientInterest(w, sid).write
    ensures Fine(w, ClientWrite(w, fd, sid, sends), sid)
  {
    hide InvExcept, Inv, Good, ClientWrite, Written, Sound;
    WriteArmed(ViewOf(w, sid));
    SoundFromGood(w, sid);
    WriteLeaves(w, fd, sid, sends);
    LeavesKeeps(w, sid, ClientWrite(w, fd, sid, sends), Written(ViewOf(w, sid), sends));
  }

  /** Which states have an interest of the target armed. */
  lemma TargetArmed(v: View)
    requires Good(v) && v.target.Some?
    ensures v.target.value.read ==> RelayShape(v.s)
    ensures v.target.value.write ==> v.s.stage == Connecting || RelayShape(v.s)
  {
  }

  ghost predicate TargetReady(w: World, sid: Sid, fd: Fd) {
    InvExcept(w, sid) && Live(w, sid) && Good(ViewOf(w, sid)) && w.heap[sid].targetFd == Some(fd)
  }

  lemma TargetReadKeeps(w: World, fd: Fd, sid: Sid, io: Io)
    requires TargetReady(w, sid, fd) && w.table[fd].interest.read
    ensures Fine(w, TargetRead(w, fd, sid, io), sid)
  {
    hide InvExcept, Inv, Good, TargetRead, Sound;
    TargetArmed(ViewOf(w, sid));
    SoundFromGood(w, sid);
    TargetReadLeaves(w, fd, sid, io);
    LeavesKeeps(w, sid, TargetRead(w, fd, sid, io), DownRead(ViewOf(w, sid), io));
  }

  lemma AttemptOverIsolated(w: World, sid: Sid, errno: int, x: Sid)
    requires InvExcept(w, sid) && Live(w, sid) && ConnectingView(ViewOf(w, sid)) && x != sid
    ensures w.heap[sid].targetFd.Some?
    ensures var s := w.heap[sid];
            Apart(w, Unregister(Put(MarkLastTry(w, sid, Failed(errno)), sid, s.(lastError := errno)), s.targetFd.value), x)
  {
    hide InvExcept, ConnectingView, Unregister, MarkLastTry, Trying, Commit, Detached, HistOk, MetersMatch;
    var v := ViewOf(w, sid);
    ConnectingIdle(v);
    LastFailedMoves(v, errno);
    LastFailedIs(w, sid, errno);
    CommitKeeps(w, sid, LastFailed(v, errno));
    CommitView(w, sid, LastFailed(v, errno));
    CommitIsolated(w, sid, LastFailed(v, errno), x);
    var w' := Commit(w, sid, LastFailed(v, errno));
    OpenIsRegistered(w', sid);
    DetachedView(w', sid);
    DetachedIsolated(w', sid, x);
  }

  lemma DetachedIsolated(w: World, sid: Sid, x: Sid)
    requires sid in w.heap && w.heap[sid].targetFd.Some? && x != sid
    ensures Apart(w, Detached(w, sid), x)
  {
  }

  lemma ConnectingIsolated(w: World, sid: Sid, io: Io, x: Sid)
    requires InvExcept(w, sid) && Live(w, sid) && ConnectingView(ViewOf(w, sid)) && x != sid
    ensures w.heap[sid].targetFd.Some? && Apart(w, TargetWrite(w, w.heap[sid].targetFd.value, sid, io), x)
  {
    hide InvExcept, ConnectingView, Unregister, TargetConnected, TargetFailed, StartNext, MarkLastTry, Trying, Moved, Commit;
    var v := ViewOf(w, sid);
    ConnectingIdle(v);
    if io.soError == Reported(0) {
      TargetConnectedIsolated(SetInterest(w, v.s.targetFd.value, NOOP), sid, x);
    } else {
      var errno := if io.soError.Reported? then io.soError.error else io.soError.errno;
      AttemptOverIsolated(w, sid, errno, x);
      AttemptOver(w, sid, errno);
      var w1 := Unregister(Put(MarkLastTry(w, sid, Failed(errno)), sid, v.s.(lastError := errno)), v.s.targetFd.value);
      StartNextIsolated(w1, sid, io.attempts, x);
      TargetFailedIsolated(StartNext(w1, sid, io.attempts), sid, x);
    }
  }

  lemma TargetWriteKeeps(w: World, fd: Fd, sid: Sid, io: Io)
    requires TargetReady(w, sid, fd) && w.table[fd].interest.write
    ensures Fine(w, TargetWrite(w, fd, sid, io), sid)
  {
    hide InvExcept, Inv, Good, TargetFlush, Sound, UpFlushed;
    TargetArmed(ViewOf(w, sid));
    SoundFromGood(w, sid);
    if w.heap[sid].stage == Connecting {
      TargetWriteConnectingKeeps(w, sid, io);
      ConnectingIsolated(w, sid, io, sid + 1);
      forall x | x != sid ensures SameAt(w, TargetWrite(w, fd, sid, io), x) { ConnectingIsolated(w, sid, io, x); }
    } else {
      FlushLeaves(w, sid, io.sends);
      LeavesKeeps(w, sid, TargetFlush(w, sid, io.sends), UpFlushed(ViewOf(w, sid), io.sends));
    }
  }

  /** A registration leads to a live session in good order. */
  lemma Lookup1(w: World, fd: Fd)
    requires Inv(w) && fd in w.table
    ensures var item := w.table[fd];
            && InvExcept(w, item.sid) && Live(w, item.sid) && Good(ViewOf(w, item.sid))
            && (if item.kind == ClientItem then w.heap[item.sid].clientFd == Some(fd)
                else w.heap[item.sid].targetFd == Some(fd))
  {
    assert Owned(w, fd);
    assert SessionOk(w, w.table[fd].sid);
  }

  lemma ReadableKeeps(w: World, fd: Fd, io: Io)
    requires Inv(w) && fd in w.table && w.table[fd].interest.read
    ensures Fine(w, Readable(w, fd, w.table[fd].kind, w.table[fd].sid, io), w.table[fd].sid)
  {
    hide Inv, InvExcept, Good, ClientRead, TargetRead;
    Lookup1(w, fd);
    var item := w.table[fd];
    if item.kind == ClientItem { ClientReadKeeps(w, fd, item.sid, io); } else { TargetReadKeeps(w, fd, item.sid, io); }
  }

  lemma WritableKeeps(w: World, fd: Fd, io: Io)
    requires Inv(w) && fd in w.table && w.table[fd].interest.write
    ensures Fine(w, Writable(w, fd, w.table[fd].kind, w.table[fd].sid, io), w.table[fd].sid)
  {
    hide Inv, InvExcept, Good, ClientWrite, TargetWrite;
    Lookup1(w, fd);
    var item := w.table[fd];
    if item.kind == ClientItem { ClientWriteKeeps(w, fd, item.sid, io.sends); } else { TargetWriteKeeps(w, fd, item.sid, io); }
  }

  // ---------------------------------------------------------------- the events

  /** A registration that survives another session's handler still belongs to the same session. */
  lemma SameOwner(w: World, r: World, fd: Fd)
    requires Inv(w) && fd in w.table && Fine(w, r, w.table[fd].sid) && fd in r.table
    ensures r.table[fd].sid == w.table[fd].sid
  {
    hide Resolution, Accounts, HistOk, SessionOk;
    var x := r.table[fd].sid;
    assert Owned(r, fd) && Owned(w, fd);
    assert x != w.table[fd].sid ==> SameAt(w, r, x);
    assert x in w.heap ==> Anchored(w, x);
  }

  /** A session with an armed descriptor waits for no lookup. */
  lemma ArmedIsIdle(w: World, fd: Fd)
    requires Inv(w) && fd in w.table && (w.table[fd].interest.read || w.table[fd].interest.write)
    ensures w.table[fd].sid in w.heap && w.heap[w.table[fd].sid].job.None?
  {
    hide Inv, InvExcept, HistOk, Story;
    Lookup1(w, fd);
  }

  lemma DispatchKeeps(w: World, fd: Fd, readable: bool, writable: bool, onRead: Io, onWrite: Io)
    requires Inv(w)
    ensures Inv(Dispatch(w, fd, readable, writable, onRead, onWrite))
    ensures var r := Dispatch(w, fd, readable, writable, onRead, onWrite);
            fd in w.table ==>
              var sid := w.table[fd].sid;
              Isolated(w, r, sid) && Work(w, r, sid) && sid in w.heap && (w.heap[sid].job.None? || r == w)
  {
    hide Inv, Readable, Writable, SameAt, SameWork;
    if fd in w.table {
      Lookup1(w, fd);
      var item := w.table[fd];
      var w1 := if readable && item.interest.read then Readable(w, fd, item.kind, item.sid, onRead) else w;
      SameWorkItself(w);
      forall x | x != item.sid ensures SameAt(w, w, x) { SameAtItself(w, x); }
      if readable && item.interest.read {
        ReadableKeeps(w, fd, onRead);
        ArmedIsIdle(w, fd);
      }
      if writable && fd in w1.table && w1.table[fd].interest.write {
        SameOwner(w, w1, fd);
        ArmedIsIdle(w1, fd);
        WritableKeeps(w1, fd, onWrite);
        var w2 := Writable(w1, fd, w1.table[fd].kind, item.sid, onWrite);
        WorkChain(w, w1, w2, item.sid);
        forall x | x != item.sid ensures SameAt(w, w2, x) { SameAtChain(w, w1, w2, x); }
      }
    }
  }

  lemma SameWorkItself(w: World)
    ensures SameWork(w, w)
  {
  }

  lemma WorkChain(w: World, w1: World, w2: World, sid: Sid)
    requires Work(w, w1, sid) && sid in w1.heap && w1.heap[sid].job.None? && Work(w1, w2, sid)
    ensures Work(w, w2, sid)
  {
  }

  lemma SameAtItself(w: World, x: Sid)
    ensures SameAt(w, w, x)
  {
  }

  lemma SameAtChain(w: World, w1: World, w2: World, x: Sid)
    requires SameAt(w, w1, x) && SameAt(w1, w2, x)
    ensures SameAt(w, w2, x)
  {
  }

  lemma ResolvingIffWaiting(w: World, sid: Sid)
    requires Inv(w) && sid in w.heap
    ensures w.heap[sid].stage == Resolving <==> w.heap[sid].job.Some?
    ensures w.heap[sid].job.Some? ==> w.heap[sid].job.value in w.jobs
  {
    assert SessionOk(w, sid) && OwnRequests(w, sid);
  }

  lemma ResolvingGood(w: World, sid: Sid)
    requires Inv(w) && sid in w.heap && w.heap[sid].stage == Resolving
    ensures InvExcept(w, sid) && Live(w, sid) && ResolvingView(ViewOf(w, sid))
  {
    assert SessionOk(w, sid);
  }

  /** One notification taken from the queue. It finds its session waiting for a finished job. */
  lemma DrainKeeps(w: World, io: Io)
    requires Inv(w) && (w.queue != [] ==> Due(w, w.queue[0]))
    ensures Inv(DrainOne(w, io))
  {
    hide Inv, InvExcept, ResolvingView, TakeAnswer;
    if w.queue != [] {
      var sid := w.table[w.queue[0]].sid;
      ResolvingIffWaiting(w, sid);
      ResolvingGood(w, sid);
      TakeAnswerKeeps(w, sid, w.heap[sid].job.value, io);
    }
  }

  // ---------------------------------------------------------------- threads

  ghost predicate SameButLookups(w: World, w': World) {
    SameSessions(w, w') && |w'.origins| == |w.origins|
    && forall i | 0 <= i < |w.origins| ::
         && w'.origins[i].sid == w.origins[i].sid && w'.origins[i].name == w.origins[i].name
         && w'.origins[i].port == w.origins[i].port
         && (w.origins[i].answer.Some? ==> w'.origins[i] == w.origins[i])
  }

  /** What only concerns job `j` carries over for all the others. */
  lemma OtherJobsKeep(w: World, w': World, j: Jid)
    requires Resolution(w) && SameButLookups(w, w')
    requires forall i | i != j :: (i in w'.jobs <==> i in w.jobs) && (i in w.jobs ==> w'.jobs[i] == w.jobs[i])
                                  && (i in w'.lists <==> i in w.lists) && (i in w.lists ==> w'.lists[i] == w.lists[i])
                                  && (i in w'.threads <==> i in w.threads) && (i in w.threads ==> w'.threads[i] == w.threads[i])
    requires forall i | 0 <= i < |w.origins| && i != j :: w'.origins[i] == w.origins[i]
    requires forall fd | fd in w.queue :: fd in w'.queue
    requires j < |w.origins| && Phase(w', j)
    requires forall x | x in w.heap && w.heap[x].job == Some(j) :: j in w'.jobs
    requires forall x | x in w.heap && w.heap[x].addresses == Some(j) :: j in w'.lists
    ensures Resolution(w')
  {
    forall i | 0 <= i < |w'.origins| ensures Phase(w', i) {
      if i != j {
        assert Phase(w, i);
        assert Waiting(w', i) == Waiting(w, i) && Holding(w', i) == Holding(w, i);
      }
    }
    forall x | x in w'.heap ensures OwnRequests(w', x) { assert OwnRequests(w, x); }
    forall x | 0 <= x < |w'.hist| ensures OwnAnswer(w', x) { assert OwnAnswer(w, x); }
  }

  /** The owner of job `j`, spelt out for the session side. */
  lemma JobLinks(w: World, j: Jid)
    requires Resolution(w) && j < |w.origins|
    ensures forall x | x in w.heap && w.heap[x].job == Some(j) :: x == w.origins[j].sid && j in w.jobs
    ensures forall x | x in w.heap && w.heap[x].addresses == Some(j) :: x == w.origins[j].sid && j in w.lists && j !in w.jobs
  {
    forall x | x in w.heap && (w.heap[x].job == Some(j) || w.heap[x].addresses == Some(j))
      ensures x == w.origins[j].sid
    {
      assert OwnRequests(w, x);
    }
    assert Phase(w, j);
  }

  lemma LookupReturnsKeeps(w: World, j: Jid, answer: Answer)
    requires Resolution(w) && j in w.threads && w.threads[j].Lookup?
    ensures var w' := LookupReturns(w, j, answer); SameButLookups(w, w') && Resolution(w')
  {
    assert Phase(w, j);
    JobLinks(w, j);
    var w' := LookupReturns(w, j, answer);
    assert Waiting(w', j) == Waiting(w, j) && Holding(w', j) == Holding(w, j);
    OtherJobsKeep(w, w', j);
  }

  lemma PublishingKeeps(w: World, j: Jid)
    requires Resolution(w) && j in w.threads && w.threads[j].Publish?
    ensures var w' := Publishing(w, j, w.threads[j].status, w.threads[j].result); SameButLookups(w, w') && Resolution(w')
  {
    assert Phase(w, j);
    JobLinks(w, j);
    var w' := Publishing(w, j, w.threads[j].status, w.threads[j].result);
    assert Waiting(w', j) == Waiting(w, j) && Holding(w', j) == Holding(w, j);
    OtherJobsKeep(w, w', j);
  }

  lemma NotifyKeeps(w: World, j: Jid)
    requires Resolution(w) && j in w.threads && w.threads[j].Notify?
    ensures var w' := w.(queue := [w.threads[j].fd] + w.queue, threads := w.threads - {j});
            SameButLookups(w, w') && Resolution(w')
  {
    assert Phase(w, j);
    JobLinks(w, j);
    var w' := w.(queue := [w.threads[j].fd] + w.queue, threads := w.threads - {j});
    assert Waiting(w', j) == Waiting(w, j) && Holding(w', j) == Holding(w, j);
    assert w.threads[j].fd == w'.queue[0] && forall k | 0 <= k < |w.queue| :: w.queue[k] == w'.queue[k + 1];
    OtherJobsKeep(w, w', j);
  }

  /** The thread frees the job and its list. */
  ghost function Discarded(w: World, j: Jid, result: bool): World {
    w.(jobs := w.jobs - {j}, lists := if result then w.lists - {j} else w.lists, threads := w.threads - {j})
  }

  lemma DiscardIs(w: World, j: Jid, answer: Answer)
    requires j in w.threads && w.threads[j].Discard? && j in w.jobs && (w.threads[j].result ==> j in w.lists)
    ensures ThreadStep(w, j, answer) == Discarded(w, j, w.threads[j].result)
  {
  }

  lemma DiscardedKeeps(w: World, j: Jid)
    requires Resolution(w) && j in w.threads && w.threads[j].Discard?
    ensures var w' := Discarded(w, j, w.threads[j].result); SameButLookups(w, w') && Resolution(w')
    ensures j in w.jobs && (w.threads[j].result ==> j in w.lists)
  {
    assert Phase(w, j);
    JobLinks(w, j);
    var w' := Discarded(w, j, w.threads[j].result);
    assert Waiting(w', j) == Waiting(w, j) && Holding(w', j) == Holding(w, j);
    OtherJobsKeep(w, w', j);
  }

  lemma ThreadStepLookups(w: World, j: Jid, answer: Answer)
    requires Resolution(w)
    ensures SameButLookups(w, ThreadStep(w, j, answer)) && Resolution(ThreadStep(w, j, answer))
  {
    hide Resolution, SameButLookups, LookupReturns, Publishing, FreeJob, FreeList;
    if j in w.threads {
      match w.threads[j] {
        case Lookup => LookupReturnsKeeps(w, j, answer);
        case Publish(_, _) => PublishingKeeps(w, j);
        case Notify(_) => NotifyKeeps(w, j);
        case Discard(_) => DiscardedKeeps(w, j); DiscardIs(w, j, answer);
      }
    } else {
      NothingChanged(w);
    }
  }

  lemma NothingChanged(w: World)
    ensures SameButLookups(w, w)
  {
  }

  /** A step of any resolver thread. */
  lemma ThreadStepKeeps(w: World, j: Jid, answer: Answer)
    requires Inv(w)
    ensures Inv(ThreadStep(w, j, answer))
  {
    hide ThreadStep;
    ThreadStepLookups(w, j, answer);
    SameSessionsKeep(w, ThreadStep(w, j, answer), 0);
  }

  // ---------------------------------------------------------------- new sessions

  lemma SumAppend(hist: seq<Hist>, t: Tally)
    ensures Sum(hist + [BLANK], t) == Sum(hist, t)
  {
    assert (hist + [BLANK])[..|hist|] == hist;
  }

  /** The world with one more session, on a descriptor that was free. */
  ghost function Admitting(w: World, fd: Fd): World {
    w.(table := w.table[fd := Item(ClientItem, READ, |w.hist|)], open := w.open + {fd},
       heap := w.heap[|w.hist| := Fresh(fd)], hist := w.hist + [BLANK],
       metrics := w.metrics.(historical := w.metrics.historical + 1, concurrent := w.metrics.concurrent + 1),
       active := w.active + 1)
  }

  lemma AdmittingLinkage(w: World, fd: Fd)
    requires Linkage(w) && fd !in w.open && fd < FD_LIMIT
    ensures Linkage(Admitting(w, fd))
  {
    var w' := Admitting(w, fd);
    forall f | f in w'.table ensures Owned(w', f) { assert f != fd ==> Owned(w, f); }
    forall x | x in w'.heap ensures Anchored(w', x) { assert x != |w.hist| ==> Anchored(w, x); }
  }

  lemma AdmittingResolution(w: World, fd: Fd)
    requires Resolution(w) && |w.hist| !in w.heap
    ensures Resolution(Admitting(w, fd))
  {
    var w' := Admitting(w, fd);
    forall j | 0 <= j < |w'.origins| ensures Phase(w', j) {
      assert Phase(w, j);
      assert Waiting(w', j) == Waiting(w, j) && Holding(w', j) == Holding(w, j);
    }
    forall x | x in w'.heap ensures OwnRequests(w', x) { assert x != |w.hist| ==> OwnRequests(w, x); }
    forall x | 0 <= x < |w'.hist| ensures OwnAnswer(w', x) { assert x != |w.hist| ==> OwnAnswer(w, x); }
  }

  lemma AdmittingAccounts(w: World, fd: Fd)
    requires Accounts(w) && |w.hist| !in w.heap
    ensures Accounts(Admitting(w, fd))
  {
    hide Sum, Fresh;
    var w' := Admitting(w, fd);
    OneMoreKey(w.heap, |w.hist|, Fresh(fd));
    forall t ensures Meter(w'.metrics, t) == Sum(w'.hist, t) {
      SumAppend(w.hist, t);
      assert Meter(w.metrics, t) == Sum(w.hist, t);
    }
    hide Meter;
  }

  lemma OneMoreKey(heap: map<Sid, Session>, sid: Sid, s: Session)
    requires sid !in heap
    ensures |heap[sid := s]| == |heap| + 1
  {
    assert heap[sid := s].Keys == heap.Keys + {sid};
  }

  lemma FreshIsFine(w: World, fd: Fd)
    requires Linkage(w) && fd !in w.open && fd < FD_LIMIT
    ensures SessionOk(Admitting(w, fd), |w.hist|) && HistOk(BLANK)
  {
    AdmittingLinkage(w, fd);
    assert Addresses([]) == [];
  }

  lemma FreshSid(w: World)
    requires Linkage(w)
    ensures |w.hist| !in w.heap
  {
    hide Linkage;
    if |w.hist| in w.heap {
      SidIsKnown(w, |w.hist|);
      assert false;
    }
  }

  lemma ClosedIsFree(w: World)
    requires Linkage(w)
    ensures w.open == w.table.Keys
  {
  }

  lemma AdmittingKeeps(w: World, fd: Fd)
    requires Inv(w) && fd !in w.open && fd < FD_LIMIT
    ensures Inv(Admitting(w, fd))
  {
    hide Linkage, Resolution, Accounts, HistOk, SessionOk;
    var w' := Admitting(w, fd);
    FreshSid(w);
    AdmittingLinkage(w, fd);
    AdmittingResolution(w, fd);
    AdmittingAccounts(w, fd);
    FreshIsFine(w, fd);
    assert fd !in w.table by { ClosedIsFree(w); }
    forall x | 0 <= x < |w'.hist| ensures HistOk(w'.hist[x]) { assert x < |w.hist| ==> HistOk(w.hist[x]); }
    OthersKept(w, w', |w.hist|);
  }

  lemma InvImpliesExcept(w: World, sid: Sid)
    requires Inv(w)
    ensures InvExcept(w, sid)
  {
  }

  /** accept_connection */
  lemma AcceptKeeps(w: World, want: Fd)
    requires Inv(w)
    ensures Inv(AcceptClient(w, want))
  {
    hide Inv, InvExcept;
    var fd := FreshFd(w.open, want);
    assert InvExcept(w, 0) by { InvImpliesExcept(w, 0); }
    OpenIsRegistered(w, 0);
    if fd < FD_LIMIT {
      AdmittingKeeps(w, fd);
    } else {
      assert w.open + {fd} - {fd} == w.open;
    }
  }
}
