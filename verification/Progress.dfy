/** The handshake is bounded: until the relay starts, every event that changes a session brings it closer to its end. */
module Progress {
  import opened Basics
  import opened Socks5
  import opened Proxy
  import opened Invariant
  import opened Frames
  import opened Teardown
  import opened Local
  import opened RelaySteps
  import opened HandshakeSteps
  import opened Structure
  import opened ConnectSteps
  import opened RequestSteps
  import opened AnswerSteps
  import opened Isolation
  import opened Handlers
  import opened Events

  /** Stages left before the relay or the end. */
  ghost function StagesLeft(s: Session): nat {
    match s.stage
    case Greeting => 6
    case Auth => 5
    case Request => 4
    case Resolving => 3
    case Connecting => 2
    case Relay => 1
    case Closing => 1
  }

  ghost function Unsent(s: Session): int {
    |s.writeBuf| - s.writeOff
  }

  /** The lexicographic order: stages left, addresses left, reply bytes left, room for undecided input. */
  ghost predicate Closer(s: Session, s': Session) {
    || StagesLeft(s') < StagesLeft(s)
    || (StagesLeft(s') == StagesLeft(s) && |s'.cursor| < |s.cursor|)
    || (StagesLeft(s') == StagesLeft(s) && |s'.cursor| == |s.cursor| && Unsent(s') < Unsent(s))
    || (StagesLeft(s') == StagesLeft(s) && |s'.cursor| == |s.cursor| && Unsent(s') == Unsent(s)
        && |s.readBuf| < |s'.readBuf| <= 512)
  }

  /** What an event may do to a session in the handshake: nothing, start its relay, or bring it closer. The cursor grows
      only when the session takes the list it waited for. */
  ghost predicate Forward(s: Session, s': Session) {
    s' == s || s'.relayStarted || (Closer(s, s') && |s'.cursor| <= |s.cursor|)
  }

  ghost predicate Onward(w: World, s: Session, s': Session) {
    Forward(s, s') || (Closer(s, s') && s.job.Some? && s.job.value in w.lists && |s'.cursor| <= |w.lists[s.job.value]|)
  }

  lemma ForwardChain(s: Session, s1: Session, s2: Session)
    requires Forward(s, s1) && Forward(s1, s2) && !s1.relayStarted
    ensures Forward(s, s2)
  {
  }

  // ---------------------------------------------------------------- handlers of the client

  lemma LeavesForward(w: World, sid: Sid, r: World, e: Exit)
    requires InvExcept(w, sid) && Leaves(w, sid, r, e)
    requires e.Stay? ==> Forward(w.heap[sid], e.v.s)
    ensures sid in r.heap ==> e.Stay? && Forward(w.heap[sid], r.heap[sid])
  {
    hide InvExcept, Inv, Settled, HistOk, MetersMatch, CloseConnection, Unregister, Forward;
    CommitKeeps(w, sid, e.v);
    CommitView(w, sid, e.v);
    var w' := Commit(w, sid, e.v);
    match e {
      case Stay(v) =>
      case End(v) => CloseConnectionEnds(w', sid);
      case Drop(v) => UnregisterClientEnds(w', sid);
    }
  }

  lemma {:induction false} FlushSends(buffer: seq<byte>, off: nat, sends: seq<Send>)
    requires off < |buffer|
    ensures var f := Flush(buffer, off, sends);
            && f.off <= |buffer|
            && (sends != [] && !sends[0].SendBlocked? && f.end != Broken ==> f.off > off)
  {
  }

  lemma WrittenForward(v: View, sends: seq<Send>)
    requires Good(v) && ReplyPending(v.s) && !v.s.relayStarted
    ensures var e := Written(v, sends);
            e.Stay? ==> Forward(v.s, e.v.s) && (sends != [] && !sends[0].SendBlocked? ==> e.v.s != v.s)
  {
    FlushSends(v.s.writeBuf, v.s.writeOff, sends);
    hide HistOk, Story;
  }

  lemma GreetingForward(v: View, got: seq<byte>, users: UserMap)
    requires Good(v) && v.s.stage == Greeting && got != []
    ensures var e := GreetingRead(Longer(v, got), users);
            e.Stay? ==> Forward(v.s, e.v.s) && e.v.s != v.s && !e.v.s.relayStarted
  {
    UndecidedIsShort(v.s.readBuf + got, users);
    hide HistOk, Story;
  }

  lemma AuthForward(v: View, got: seq<byte>, users: UserMap)
    requires Good(v) && v.s.stage == Auth && NoReply(v.s) && got != []
    ensures var e := AuthRead(Longer(v, got), users);
            e.Stay? ==> Forward(v.s, e.v.s) && e.v.s != v.s && !e.v.s.relayStarted
  {
    UndecidedIsShort(v.s.readBuf + got, users);
    hide HistOk, Story;
  }

  // ---------------------------------------------------------------- stages reached by the connection code

  lemma RememberKeepsHeap(w: World, sid: Sid, h: Hist)
    ensures Remember(w, sid, h).heap == w.heap
  {
    if sid < |w.hist| {} else {}
  }

  lemma LogAccessKeepsRelay(w: World, sid: Sid)
    requires sid in w.heap
    ensures sid in LogAccess(w, sid, false).heap
    ensures LogAccess(w, sid, false).heap[sid].relayStarted == w.heap[sid].relayStarted
    ensures LogAccess(w, sid, false).heap[sid].cursor == w.heap[sid].cursor
  {
    if w.heap[sid].accessLogged || !HasDestination(w.heap[sid]) {
    } else if sid < |w.hist| {
    } else {
    }
  }

  lemma RefuseCloses(w: World, sid: Sid, code: byte, logged: bool)
    requires sid in w.heap
    ensures var r := Refuse(w, sid, code, logged);
            && sid in r.heap && r.heap[sid].stage == Closing && r.heap[sid].relayStarted == w.heap[sid].relayStarted
            && r.heap[sid].cursor == w.heap[sid].cursor
  {
    var h := Past(w, sid);
    var w1 := Remember(w, sid, h.(replies := h.replies + [code])).(metrics := w.metrics.(failed := w.metrics.failed + 1));
    hide LogAccess, Remember, RequestResponse;
    RememberKeepsHeap(w, sid, h.(replies := h.replies + [code]));
    LogAccessKeepsRelay(w1, sid);
    if logged {
      var w2 := LogAccess(w1, sid, false);
      assert Refuse(w, sid, code, logged)
             == Put(w2, sid, w2.heap[sid].(writeBuf := RequestResponse(code), writeOff := 0, stage := Closing));
    } else {
      assert Refuse(w, sid, code, logged)
             == Put(w1, sid, w1.heap[sid].(writeBuf := RequestResponse(code), writeOff := 0, stage := Closing));
    }
  }

  lemma StartConnectionStage(w: World, sid: Sid, address: Address, attempt: Attempt)
    requires sid in w.heap
    ensures var r := StartConnection(w, sid, address, attempt);
            && sid in r.w.heap && r.w.heap[sid].relayStarted == w.heap[sid].relayStarted
            && (r.ok ==> r.w.heap[sid].stage == Connecting)
  {
  }

  lemma AfterStartStage(r: Started, fd: Fd, sid: Sid)
    requires sid in r.w.heap && (r.ok ==> r.w.heap[sid].stage == Connecting)
    ensures var w := AfterStart(r, fd, sid);
            && sid in w.heap && w.heap[sid].relayStarted == r.w.heap[sid].relayStarted
            && w.heap[sid].stage in {Connecting, Closing} && w.heap[sid].cursor == r.w.heap[sid].cursor
  {
    hide Refuse;
    RefuseCloses(r.w, sid, ReplyForErrno(r.w.heap[sid].lastError), true);
  }

  lemma BeginStage(w: World, sid: Sid, request: ConnectRequest, io: Io)
    requires Live(w, sid) && w.heap[sid].addresses.None? && w.heap[sid].job.None? && !w.heap[sid].relayStarted
    ensures var r := Begin(w, w.heap[sid].clientFd.value, sid, request, io);
            && sid in r.heap && !r.heap[sid].relayStarted && r.heap[sid].stage in {Resolving, Connecting, Closing}
            && r.heap[sid].cursor == w.heap[sid].cursor
  {
    hide Begin, BeginLookup, StartConnection, AfterStart, Commit;
    BeginIs(w, sid, request, io);
    var v := ViewOf(w, sid);
    var fd := v.s.clientFd.value;
    CommitView(w, sid, WithRequest(v, request));
    CommitView(w, sid, WithCandidate(v, request));
    if request.atyp == ATYP_DOMAIN {
      BeginLookupStage(Commit(w, sid, WithRequest(v, request)), fd, sid, request, io);
    } else {
      var w1 := Commit(w, sid, WithCandidate(v, request));
      StartConnectionStage(w1, sid, Literal(request), FirstAttempt(io.attempts));
      AfterStartStage(StartConnection(w1, sid, Literal(request), FirstAttempt(io.attempts)), fd, sid);
    }
  }

  lemma BeginLookupStage(w: World, fd: Fd, sid: Sid, request: ConnectRequest, io: Io)
    requires sid in w.heap
    ensures var r := BeginLookup(w, fd, sid, request, io);
            && sid in r.heap && r.heap[sid].stage in {Resolving, Closing} && r.heap[sid].cursor == w.heap[sid].cursor
            && r.heap[sid].relayStarted == w.heap[sid].relayStarted
  {
    hide Refuse, CString, Remember;
    RefuseCloses(w, sid, REPLY_GENERAL_FAILURE, true);
  }

  lemma RequestForward(w: World, sid: Sid, got: seq<byte>, io: Io)
    requires Live(w, sid) && Good(ViewOf(w, sid)) && w.heap[sid].stage == Request && NoReply(w.heap[sid]) && got != []
    ensures var s := w.heap[sid];
            var r := ReadRequest(Put(w, sid, s.(readBuf := s.readBuf + got)), s.clientFd.value, sid, io);
            sid in r.heap && Forward(s, r.heap[sid]) && r.heap[sid] != s && !r.heap[sid].relayStarted
  {
    hide Begin, Refuse, HistOk, Story, Commit;
    var s := w.heap[sid];
    var v := ViewOf(w, sid);
    var v1 := Longer(v, got);
    PutIs(w, sid, v1.s);
    CommitView(w, sid, v1);
    var w1 := Put(w, sid, v1.s);
    UndecidedIsShort(v1.s.readBuf, map[]);
    match DecideRequest(v1.s.readBuf) {
      case RequestWait =>
      case RequestReject(code) => RefuseCloses(w1, sid, code, false);
      case RequestConnect(request) => BeginStage(w1, sid, request, io);
    }
  }

  /** client_read during the handshake. */
  lemma ClientReadForward(w: World, fd: Fd, sid: Sid, io: Io)
    requires Ready0(w, sid, fd) && ClientInterest(w, sid).read && !w.heap[sid].relayStarted
    ensures var r := ClientRead(w, fd, sid, io);
            sid in r.heap ==>
              && Forward(w.heap[sid], r.heap[sid]) && !r.heap[sid].relayStarted
              && (!io.recv.RecvBlocked? ==> r.heap[sid] != w.heap[sid])
  {
    hide InvExcept, Inv, Good, Sound, Settled, Undecided, ReadGreeting, ReadAuth, ReadRequest, CloseConnection, Moved, Commit;
    var v := ViewOf(w, sid);
    ReadArmed(v);
    if io.recv.RecvFailed? {
      CloseConnectionGone(w, sid);
    } else if io.recv.Received? {
      var got := Take(io.recv.bytes, BUFFER_SIZE - |v.s.readBuf|);
      if got == [] { CloseConnectionGone(w, sid); } else { HandshakeReadForward(w, fd, sid, got, io); }
    }
  }

  lemma CloseConnectionGone(w: World, sid: Sid)
    requires InvExcept(w, sid) && Live(w, sid)
    ensures sid !in CloseConnection(w, sid).heap
  {
    hide InvExcept;
    CloseConnectionEnds(w, sid);
  }

  lemma HandshakeReadForward(w: World, fd: Fd, sid: Sid, got: seq<byte>, io: Io)
    requires Ready0(w, sid, fd) && ClientInterest(w, sid) == READ && NoReply(w.heap[sid]) && got != []
    requires w.heap[sid].stage == Greeting || w.heap[sid].stage == Auth || w.heap[sid].stage == Request
    ensures var s := w.heap[sid]; var w1 := Put(w, sid, s.(readBuf := s.readBuf + got));
            var r := if s.stage == Greeting then ReadGreeting(w1, fd, sid, io.users)
                     else if s.stage == Auth then ReadAuth(w1, fd, sid, io.users) else ReadRequest(w1, fd, sid, io);
            sid in r.heap ==> Forward(s, r.heap[sid]) && r.heap[sid] != s && !r.heap[sid].relayStarted
  {
    hide InvExcept, Inv, Good, ReadGreeting, ReadAuth, ReadRequest, Moved, Settled, GreetingRead, AuthRead, Forward;
    var v := ViewOf(w, sid);
    if v.s.stage == Greeting {
      GreetingFollows(v, got, io.users);
      GreetingForward(v, got, io.users);
      ReadGreetingIs(w, fd, sid, got, io.users);
      LeavesForward(w, sid, ReadGreeting(Put(w, sid, Longer(v, got).s), fd, sid, io.users), GreetingRead(Longer(v, got), io.users));
    } else if v.s.stage == Auth {
      AuthFollows(v, got, io.users);
      AuthForward(v, got, io.users);
      ReadAuthIs(w, fd, sid, got, io.users);
      LeavesForward(w, sid, ReadAuth(Put(w, sid, Longer(v, got).s), fd, sid, io.users), AuthRead(Longer(v, got), io.users));
    } else {
      RequestForward(w, sid, got, io);
    }
  }

  /** client_write during the handshake. */
  lemma ClientWriteForward(w: World, fd: Fd, sid: Sid, sends: seq<Send>)
    requires Ready0(w, sid, fd) && ClientInterest(w, sid).write && !w.heap[sid].relayStarted
    ensures var r := ClientWrite(w, fd, sid, sends);
            sid in r.heap ==>
              && Forward(w.heap[sid], r.heap[sid])
              && (sends != [] && !sends[0].SendBlocked? ==> r.heap[sid] != w.heap[sid])
  {
    hide InvExcept, Inv, Good, ClientWrite, Written, Sound, Forward;
    var v := ViewOf(w, sid);
    WriteArmed(v);
    SoundFromGood(w, sid);
    WriteLeaves(w, fd, sid, sends);
    WrittenForward(v, sends);
    LeavesForward(w, sid, ClientWrite(w, fd, sid, sends), Written(v, sends));
  }

  // ---------------------------------------------------------------- handlers of the target and of notifications

  lemma TargetFailedStage(r: Started, sid: Sid)
    requires sid in r.w.heap
    ensures var w := TargetFailed(r, sid);
            && sid in w.heap && w.heap[sid].relayStarted == r.w.heap[sid].relayStarted
            && w.heap[sid].cursor == r.w.heap[sid].cursor && (if r.ok then w == r.w else w.heap[sid].stage == Closing)
  {
    hide Refuse;
    RefuseCloses(r.w, sid, ReplyForErrno(r.w.heap[sid].lastError), true);
  }

  lemma BegunStage(v: View)
    requires Begun(v)
    ensures v.s.stage == Connecting && !v.s.relayStarted
  {
  }

  lemma TryingStage(v: View)
    requires Trying(v, [])
    ensures !v.s.relayStarted
  {
  }

  /** target_write while connecting always moves the session. */
  lemma ConnectingForward(w: World, sid: Sid, io: Io)
    requires InvExcept(w, sid) && Live(w, sid) && ConnectingView(ViewOf(w, sid))
    ensures w.heap[sid].targetFd.Some?
    ensures var r := TargetWrite(w, w.heap[sid].targetFd.value, sid, io);
            sid in r.heap && Forward(w.heap[sid], r.heap[sid]) && r.heap[sid] != w.heap[sid] && !r.heap[sid].relayStarted
  {
    hide InvExcept, ConnectingView, Unregister, Trying, Begun, TargetConnected, TargetFailed, StartNext, MarkLastTry, Commit;
    var v := ViewOf(w, sid);
    ConnectingIdle(v);
    if io.soError == Reported(0) {
      SucceededStage(v);
      TargetConnectedIs(w, sid);
      CommitView(w, sid, Succeeded(v));
    } else {
      var errno := if io.soError.Reported? then io.soError.error else io.soError.errno;
      AttemptOver(w, sid, errno);
      var w1 := Unregister(Put(MarkLastTry(w, sid, Failed(errno)), sid, v.s.(lastError := errno)), v.s.targetFd.value);
      StartNextKeeps(w1, sid, io.attempts);
      var r := StartNext(w1, sid, io.attempts);
      TargetFailedStage(r, sid);
      if r.ok { BegunStage(ViewOf(r.w, sid)); } else { TryingStage(ViewOf(r.w, sid)); }
    }
  }

  lemma SucceededStage(v: View)
    requires ConnectingView(v)
    ensures v.h.tried != [] && Kept(v.s, Succeeded(v).s) && Succeeded(v).target.Some?
    ensures Succeeded(v).s.stage == Relay && !Succeeded(v).s.relayStarted
  {
    hide HistOk;
  }

  /** target_connection_on_resolve with a finished job moves the session on. */
  lemma TakeAnswerForward(w0: World, sid: Sid, j: Jid, io: Io)
    requires InvExcept(w0, sid) && Live(w0, sid) && ResolvingView(ViewOf(w0, sid))
    requires w0.heap[sid].job == Some(j) && j in w0.jobs && w0.jobs[j].done
    requires w0.queue != [] && w0.heap[sid].clientFd == Some(w0.queue[0])
    ensures var r := TakeAnswer(Popped(w0), w0.heap[sid].clientFd.value, sid, j, io);
            sid in r.heap && Onward(w0, w0.heap[sid], r.heap[sid])
  {
    hide InvExcept, ResolvingView, TakeAnswer, Refuse, StartNext, AfterStart, Trying, Begun, Commit, SetInterest;
    var v, w := ViewOf(w0, sid), Popped(w0);
    var t := Taken(w, sid);
    var fd := w.heap[sid].clientFd.value;
    AnswerTaken(w0, sid, j);
    ResolvingStage(v);
    TakeAnswerIs(w, sid, j, io);
    if !w.jobs[j].result {
      var code := ReplyForGaiError(w.jobs[j].status);
      RefuseCloses(t, sid, code, true);
      SetInterestApart(Refuse(t, sid, code, true), fd, WRITE, sid);
    } else {
      ListTaken(w0, sid, j);
      var w2 := Commit(t, sid, Resolved(ViewOf(t, sid), j, w.lists[j]));
      StartNextKeeps(w2, sid, io.attempts);
      var r := StartNext(w2, sid, io.attempts);
      if r.ok { BegunStage(ViewOf(r.w, sid)); } else { TryingStage(ViewOf(r.w, sid)); }
      AfterStartStage(r, fd, sid);
    }
  }

  lemma ResolvingStage(v: View)
    requires ResolvingView(v)
    ensures v.s.stage == Resolving && !v.s.relayStarted
  {
  }

  // ---------------------------------------------------------------- every event

  lemma ReadableForward(w: World, fd: Fd, io: Io)
    requires Inv(w) && fd in w.table && w.table[fd].interest.read
    ensures var sid := w.table[fd].sid; var r := Readable(w, fd, w.table[fd].kind, sid, io);
            sid in w.heap && (sid in r.heap && !w.heap[sid].relayStarted ==>
              && Forward(w.heap[sid], r.heap[sid]) && !r.heap[sid].relayStarted
              && (!io.recv.RecvBlocked? ==> r.heap[sid] != w.heap[sid]))
  {
    hide Inv, InvExcept, Good, ClientRead, TargetRead, Forward;
    Lookup1(w, fd);
    var item := w.table[fd];
    if !w.heap[item.sid].relayStarted {
      if item.kind == ClientItem { ClientReadForward(w, fd, item.sid, io); } else { TargetArmed(ViewOf(w, item.sid)); }
    }
  }

  lemma WritableForward(w: World, fd: Fd, io: Io)
    requires Inv(w) && fd in w.table && w.table[fd].interest.write
    ensures var sid := w.table[fd].sid; var r := Writable(w, fd, w.table[fd].kind, sid, io);
            sid in w.heap && (sid in r.heap && !w.heap[sid].relayStarted ==>
              && Forward(w.heap[sid], r.heap[sid])
              && (w.table[fd].kind == TargetItem || (io.sends != [] && !io.sends[0].SendBlocked?) ==>
                    r.heap[sid] != w.heap[sid]))
  {
    hide Inv, InvExcept, Good, ClientWrite, TargetWrite, Forward;
    Lookup1(w, fd);
    var item := w.table[fd];
    if !w.heap[item.sid].relayStarted {
      if item.kind == ClientItem {
        ClientWriteForward(w, fd, item.sid, io.sends);
      } else {
        TargetArmed(ViewOf(w, item.sid));
        ConnectingForward(w, item.sid, io);
      }
    }
  }

  lemma DispatchForward(w: World, fd: Fd, readable: bool, writable: bool, onRead: Io, onWrite: Io)
    requires Inv(w) && fd in w.table
    ensures var sid := w.table[fd].sid; var r := Dispatch(w, fd, readable, writable, onRead, onWrite);
            sid in w.heap && (sid in r.heap && !w.heap[sid].relayStarted ==> Forward(w.heap[sid], r.heap[sid]))
  {
    hide Inv, Readable, Writable, SameAt, Closer;
    Lookup1(w, fd);
    var item := w.table[fd];
    var sid := item.sid;
    var w1 := if readable && item.interest.read then Readable(w, fd, item.kind, sid, onRead) else w;
    if readable && item.interest.read {
      ReadableKeeps(w, fd, onRead);
      ReadableForward(w, fd, onRead);
    }
    if writable && fd in w1.table && w1.table[fd].interest.write {
      if readable && item.interest.read { SameOwner(w, w1, fd); }
      WritableForward(w1, fd, onWrite);
      var r := Writable(w1, fd, w1.table[fd].kind, sid, onWrite);
      if sid in r.heap && !w.heap[sid].relayStarted { ForwardChain(w.heap[sid], w1.heap[sid], r.heap[sid]); }
    }
  }

  lemma DrainForward(w: World, io: Io, sid: Sid)
    requires Inv(w) && Awaited(w) && sid in w.heap
    ensures var r := DrainOne(w, io); sid in r.heap && Onward(w, w.heap[sid], r.heap[sid])
  {
    hide Inv, InvExcept, ResolvingView, TakeAnswer, Closer, DrainOne;
    if w.queue != [] {
      var fd := w.queue[0];
      assert Due(w, fd);
      DrainIs(w, io);
      var x := w.table[fd].sid;
      ResolvingIffWaiting(w, x);
      ResolvingGood(w, x);
      var j := w.heap[x].job.value;
      if x == sid { TakeAnswerForward(w, sid, j, io); } else { TakeAnswerIsolated(Popped(w), fd, x, j, io, sid); }
    } else {
      NothingDrained(w, io);
    }
  }

  lemma NothingDrained(w: World, io: Io)
    requires w.queue == []
    ensures DrainOne(w, io) == w
  {
  }

  lemma ThreadsLeaveSessions(w: World, j: Jid, answer: Answer)
    ensures ThreadStep(w, j, answer).heap == w.heap
  {
    if j in w.threads {
      match w.threads[j] {
        case Lookup => hide FreeJob, FreeList, Publishing;
        case Publish(_, _) => hide FreeJob, FreeList, LookupReturns;
        case Notify(_) => hide FreeJob, FreeList, LookupReturns, Publishing;
        case Discard(result) =>
          hide LookupReturns, Publishing;
          var a := if result then FreeList(w, j) else w;
          assert a.heap == w.heap && FreeJob(a, j).heap == a.heap;
          hide FreeJob, FreeList;
      }
    }
  }

  lemma AcceptingLeavesSessions(w: World, want: Fd, sid: Sid)
    requires sid in w.heap && sid < |w.hist|
    ensures var r := AcceptClient(w, want); sid in r.heap && r.heap[sid] == w.heap[sid]
  {
  }

  lemma OtherEventsLeaveIt(w: World, e: Event, sid: Sid)
    requires sid in w.heap && sid < |w.hist|
    requires e.Accept? || e.ThreadRuns?
    ensures var r := Step(w, e); sid in r.heap && r.heap[sid] == w.heap[sid]
  {
    hide AcceptClient, ThreadStep, Dispatch, DrainOne;
    if e.Accept? { AcceptingLeavesSessions(w, e.want, sid); }
    if e.ThreadRuns? { ThreadsLeaveSessions(w, e.j, e.answer); }
  }

  lemma StepForward(w: World, e: Event, sid: Sid)
    requires Inv(w) && Awaited(w) && sid in w.heap && !w.heap[sid].relayStarted
    ensures sid in Step(w, e).heap ==> Onward(w, w.heap[sid], Step(w, e).heap[sid])
  {
    hide Inv, Awaited, InvExcept, Settled, HistOk, AcceptClient, Dispatch, DrainOne, ThreadStep, Closer, Work;
    Facts(w, sid);
    match e {
      case Ready(fd, readable, writable, onRead, onWrite) =>
        if fd in w.table {
          if w.table[fd].sid == sid {
            DispatchForward(w, fd, readable, writable, onRead, onWrite);
          } else {
            DispatchKeeps(w, fd, readable, writable, onRead, onWrite);
            assert SameAt(w, Dispatch(w, fd, readable, writable, onRead, onWrite), sid);
          }
        } else {
          NothingDispatched(w, fd, readable, writable, onRead, onWrite);
        }
      case Drain(io) => DrainForward(w, io, sid);
      case _ => OtherEventsLeaveIt(w, e, sid);
    }
  }

  /** Bounded handshake: until its relay starts, whatever event happens to a session leaves it as it is, ends it,
      starts its relay, or strictly decreases (stages left, addresses left, reply bytes left, room for input). */
  lemma HandshakeIsBounded(events: seq<Event>, e: Event, sid: Sid)
    ensures var w := Run(START, events); var w' := Step(w, e);
            sid in w.heap && sid in w'.heap && !w.heap[sid].relayStarted ==>
              w'.heap[sid] == w.heap[sid] || w'.heap[sid].relayStarted || Closer(w.heap[sid], w'.heap[sid])
  {
    hide Inv, Awaited, Step, Closer, Run;
    Reachable(events);
    var w := Run(START, events);
    if sid in w.heap && !w.heap[sid].relayStarted { StepForward(w, e, sid); }
  }

  /** It is left as it is only when there was nothing to do: a ready descriptor of a session in the handshake moves
      it unless the call would block. */
  lemma ReadyDescriptorsMove(events: seq<Event>, fd: Fd, io: Io)
    ensures var w := Run(START, events);
            fd in w.table ==>
              var sid := w.table[fd].sid;
              sid in w.heap && (!w.heap[sid].relayStarted ==>
                && (w.table[fd].interest.read && !io.recv.RecvBlocked? ==>
                      var r := Step(w, Ready(fd, true, false, io, io)); sid in r.heap ==> r.heap[sid] != w.heap[sid])
                && (w.table[fd].interest.write && (w.table[fd].kind == TargetItem || (io.sends != [] && !io.sends[0].SendBlocked?)) ==>
                      var r := Step(w, Ready(fd, false, true, io, io)); sid in r.heap ==> r.heap[sid] != w.heap[sid]))
  {
    hide Inv, Awaited, Readable, Writable, Forward, Run, Live, ViewOf, InvExcept, Good;
    Reachable(events);
    var w := Run(START, events);
    if fd in w.table {
      if w.table[fd].interest.read { ReadableForward(w, fd, io); }
      if w.table[fd].interest.write { WritableForward(w, fd, io); }
      assert w.table[fd].sid in w.heap by { Lookup1(w, fd); }
    }
  }
}
