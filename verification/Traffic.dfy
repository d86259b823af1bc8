/** What goes through the relay, told from the results of recv and send alone: which bytes an event takes in, and how many
    of them the kernel accepts on the other side. */
module Traffic {
  import opened Basics
  import opened Socks5
  import opened Proxy
  import opened Wire
  import opened Invariant
  import opened Teardown
  import opened Local
  import opened RelaySteps
  import opened HandshakeSteps
  import opened Structure
  import opened ConnectSteps
  import opened RequestSteps
  import opened AnswerSteps
  import opened Isolation
  import opened Histories
  import opened Handlers
  import opened Events
  import opened Progress
  import opened Theorems

  /** Bytes received from and sent on to each peer. */
  datatype Freight = Freight(upIn: seq<byte>, upOut: seq<byte>, downIn: seq<byte>, downOut: seq<byte>)

  const STILL := Freight([], [], [], [])

  ghost function Plus(a: Freight, b: Freight): Freight {
    Freight(a.upIn + b.upIn, a.upOut + b.upOut, a.downIn + b.downIn, a.downOut + b.downOut)
  }

  /** What a history says went through. */
  ghost function Recorded(h: Hist): Freight {
    Freight(h.c2tIn, h.c2tOut, h.t2cIn, h.t2cOut)
  }

  /** What one recv into a buffer of 4096 bytes brings. */
  ghost function Got(recv: Recv): seq<byte> {
    if !recv.Received? then [] else if |recv.bytes| <= 4096 then recv.bytes else recv.bytes[..4096]
  }

  /** The next `n` bytes of a buffer, as far as there are any. */
  ghost function Next(buffer: seq<byte>, off: nat, n: nat): seq<byte> {
    if off > |buffer| then [] else if off + n <= |buffer| then buffer[off..off + n] else buffer[off..]
  }

  /** Not both ways at once. */
  ghost predicate OneWay(e: Event) {
    e.Ready? ==> !(e.readable && e.writable)
  }

  /** What an event moves through the relay of session `sid`. Something is received only into an empty buffer and offered
      to the other side at once; a ready consumer is sent what is buffered for it. */
  ghost function Moves(w: World, e: Event, sid: Sid): Freight {
    if !e.Ready? || sid !in w.heap || !w.heap[sid].relayStarted then STILL
    else
      var s := w.heap[sid];
      if e.readable && s.clientFd == Some(e.fd) && s.c2t == [] then
        Freight(Got(e.onRead.recv), Next(Got(e.onRead.recv), 0, Accepted(e.onRead.sends)), [], [])
      else if e.readable && s.targetFd == Some(e.fd) && s.t2c == [] then
        Freight([], [], Got(e.onRead.recv), Next(Got(e.onRead.recv), 0, Accepted(e.onRead.sends)))
      else if e.writable && s.clientFd == Some(e.fd) && s.t2c != [] then
        Freight([], [], [], Next(s.t2c, s.t2cOff, Accepted(e.onWrite.sends)))
      else if e.writable && s.targetFd == Some(e.fd) && s.c2t != [] then
        Freight([], Next(s.c2t, s.c2tOff, Accepted(e.onWrite.sends)), [], [])
      else STILL
  }

  // ---------------------------------------------------------------- what a handler adds to the histories

  lemma CommitPast(w: World, sid: Sid, v: View, x: Sid)
    requires Live(w, sid)
    ensures Past(Commit(w, sid, v), x) == if x == sid then v.h else Past(w, x)
  {
  }

  /** A handler that leaves by an exit changes the history of its session, and no other. */
  lemma LeavesPast(w: World, sid: Sid, r: World, e: Exit, x: Sid)
    requires InvExcept(w, sid) && Leaves(w, sid, r, e)
    ensures Past(r, x) == if x == sid then e.v.h else Past(w, x)
  {
    hide InvExcept, Inv, Settled, Moved, Commit, CloseConnection, Unregister;
    CommitPast(w, sid, e.v, x);
    CommitKeeps(w, sid, e.v);
    assert SameTies(ViewOf(w, sid), e.v) by { MovedTies(ViewOf(w, sid), e.v); }
    CommitView(w, sid, e.v);
    var c := Commit(w, sid, e.v);
    match e {
      case Stay(_) =>
      case End(_) => CloseConnectionEnds(c, sid);
      case Drop(_) => UnregisterClientEnds(c, sid);
    }
  }

  /** Nothing was received from or sent to anybody's relay. */
  ghost predicate Silent(w: World, r: World, x: Sid) {
    Recorded(Past(r, x)) == Recorded(Past(w, x))
  }

  lemma SameIsSilent(w: World, r: World, x: Sid)
    requires || Past(r, x) == Past(w, x)
             || Unlogged(Past(r, x)).(replies := [], tried := []) == Unlogged(Past(w, x)).(replies := [], tried := [])
    ensures Silent(w, r, x)
  {
  }

  // ---------------------------------------------------------------- exits of the relay

  lemma NextIsSlice(buffer: seq<byte>, off: nat, n: nat)
    requires off <= |buffer|
    ensures Next(buffer, off, n) == Slice(buffer, off, Min(|buffer|, off + n))
  {
  }

  /** What a flush adds to the record: what the kernel took. */
  lemma FlushedFlow(v: View, sends: seq<Send>)
    requires v.s.c2tOff <= |v.s.c2t| && v.s.t2cOff <= |v.s.t2c|
    ensures Recorded(UpFlushed(v, sends).v.h) == Plus(Recorded(v.h), Freight([], Next(v.s.c2t, v.s.c2tOff, Accepted(sends)), [], []))
    ensures Recorded(DownFlushed(v, sends).v.h) == Plus(Recorded(v.h), Freight([], [], [], Next(v.s.t2c, v.s.t2cOff, Accepted(sends))))
  {
    FlushMoves(v.s.c2t, v.s.c2tOff, sends);
    FlushMoves(v.s.t2c, v.s.t2cOff, sends);
    NextIsSlice(v.s.c2t, v.s.c2tOff, Accepted(sends));
    NextIsSlice(v.s.t2c, v.s.t2cOff, Accepted(sends));
    hide Flush, Slice, Next, Accepted, Lost;
    assert v.h.c2tIn + [] == v.h.c2tIn && v.h.t2cIn + [] == v.h.t2cIn && v.h.c2tOut + [] == v.h.c2tOut && v.h.t2cOut + [] == v.h.t2cOut;
  }

  lemma PlusStill(f: Freight)
    ensures Plus(f, STILL) == f
  {
    assert f.upIn + [] == f.upIn && f.upOut + [] == f.upOut && f.downIn + [] == f.downIn && f.downOut + [] == f.downOut;
  }

  lemma GotIsTake(recv: Recv)
    ensures recv.Received? ==> Got(recv) == Take(recv.bytes, BUFFER_SIZE)
    ensures !recv.Received? ==> Got(recv) == []
    ensures Next([], 0, 0) == []
  {
  }

  lemma UpReadFlow(v: View, io: Io)
    requires RelayShape(v.s) && v.s.c2t == []
    ensures Recorded(UpRead(v, io).v.h)
            == Plus(Recorded(v.h), Freight(Got(io.recv), Next(Got(io.recv), 0, Accepted(io.sends)), [], []))
  {
    hide UpFlushed, Accepted;
    PlusStill(Recorded(v.h));
    GotIsTake(io.recv);
    var got := Got(io.recv);
    if got != [] {
      var v1 := UpReceived(v, got);
      FlushedFlow(v1, io.sends);
      assert v.h.c2tOut + [] == v.h.c2tOut && v.h.t2cIn + [] == v.h.t2cIn && v.h.t2cOut + [] == v.h.t2cOut;
    }
  }

  lemma DownReadFlow(v: View, io: Io)
    requires RelayShape(v.s) && v.s.t2c == []
    ensures Recorded(DownRead(v, io).v.h)
            == Plus(Recorded(v.h), Freight([], [], Got(io.recv), Next(Got(io.recv), 0, Accepted(io.sends))))
  {
    hide DownFlushed, Accepted;
    PlusStill(Recorded(v.h));
    GotIsTake(io.recv);
    var got := Got(io.recv);
    if got != [] {
      var v1 := DownReceived(v, got);
      FlushedFlow(v1, io.sends);
      assert v.h.c2tOut + [] == v.h.c2tOut && v.h.c2tIn + [] == v.h.c2tIn && v.h.t2cOut + [] == v.h.t2cOut;
    }
  }

  lemma WrittenFlow(v: View, sends: seq<Send>)
    requires Good(v) && (ReplyPending(v.s) || RelayShape(v.s))
    ensures Recorded(Written(v, sends).v.h)
            == if v.s.relayStarted then Plus(Recorded(v.h), Freight([], [], [], Next(v.s.t2c, v.s.t2cOff, Accepted(sends))))
               else Recorded(v.h)
  {
    if v.s.relayStarted {
      hide HistOk, Story, Accepted, Flush;
      FlushMoves(v.s.writeBuf, v.s.writeOff, sends);
      FlushedFlow(v, sends);
    } else {
      hide HistOk, Story, Flush, Accepted;
    }
  }

  // ---------------------------------------------------------------- handlers that move nothing

  lemma CommitOpen(w: World, sid: Sid, v: View)
    requires Live(w, sid) && w.open == w.table.Keys
    ensures Commit(w, sid, v).open == Commit(w, sid, v).table.Keys == w.open && |Commit(w, sid, v).hist| == |w.hist|
    ensures sid in Commit(w, sid, v).heap
  {
  }

  lemma BeginSilent(w: World, sid: Sid, request: ConnectRequest, io: Io, x: Sid)
    requires Live(w, sid) && w.heap[sid].addresses.None? && w.heap[sid].job.None? && w.open == w.table.Keys
    ensures Silent(w, Begin(w, w.heap[sid].clientFd.value, sid, request, io), x)
  {
    hide Begin, BeginLookup, StartConnection, AfterStart, Commit;
    var v, fd := ViewOf(w, sid), w.heap[sid].clientFd.value;
    BeginIs(w, sid, request, io);
    if request.atyp == ATYP_DOMAIN {
      var v1 := WithRequest(v, request);
      CommitPast(w, sid, v1, x);
      CommitPast(w, sid, v1, sid);
      CommitOpen(w, sid, v1);
      BeginLookupPast(Commit(w, sid, v1), fd, sid, request, io, x);
    } else {
      var v1 := WithCandidate(v, request);
      CommitPast(w, sid, v1, x);
      CommitPast(w, sid, v1, sid);
      CommitOpen(w, sid, v1);
      var w1 := Commit(w, sid, v1);
      StartConnectionPast(w1, sid, Literal(request), FirstAttempt(io.attempts), x);
      StartConnectionPast(w1, sid, Literal(request), FirstAttempt(io.attempts), sid);
      AfterStartPast(StartConnection(w1, sid, Literal(request), FirstAttempt(io.attempts)), fd, sid, x);
    }
    hide Past;
  }

  lemma DiscardingPast(w: World, sid: Sid, x: Sid)
    ensures Past(Discarding(w, sid), x) == Past(w, x)
  {
    if sid in w.heap {} else {}
  }

  lemma RequestSilent(w: World, sid: Sid, got: seq<byte>, io: Io, x: Sid)
    requires Live(w, sid) && w.heap[sid].addresses.None? && w.heap[sid].job.None? && w.open == w.table.Keys
    ensures var s := w.heap[sid];
            Silent(w, ReadRequest(Put(w, sid, s.(readBuf := s.readBuf + got)), s.clientFd.value, sid, io), x)
  {
    hide Begin, Refuse, Discarding, SetInterest, DecideRequest, Commit;
    var v, fd := ViewOf(w, sid), w.heap[sid].clientFd.value;
    var v1 := Longer(v, got);
    var w1 := Put(w, sid, v1.s);
    PutPast(w, sid, v1.s, x);
    match DecideRequest(v1.s.readBuf) {
      case RequestWait =>
      case RequestReject(code) =>
        RejectIs(w, fd, sid, got, code);
        CommitPast(w, sid, Refused(v1, code), x);
      case RequestConnect(request) =>
        PutIs(w, sid, v1.s);
        CommitView(w, sid, v1);
        BeginSilent(w1, sid, request, io, x);
        DiscardingPast(Begin(w1, fd, sid, request, io), sid, x);
    }
  }

  lemma NegotiationSilent(v: View, got: seq<byte>, users: UserMap)
    ensures Recorded(GreetingRead(Longer(v, got), users).v.h) == Recorded(v.h)
    ensures Recorded(AuthRead(Longer(v, got), users).v.h) == Recorded(v.h)
  {
    hide DecideGreeting, DecideAuth;
  }

  lemma ConnectingSilent(w: World, sid: Sid, io: Io, x: Sid)
    requires InvExcept(w, sid) && Live(w, sid) && ConnectingView(ViewOf(w, sid))
    ensures w.heap[sid].targetFd.Some? && Silent(w, TargetWrite(w, w.heap[sid].targetFd.value, sid, io), x)
  {
    hide InvExcept, ConnectingView, Unregister, MarkLastTry, Commit, TargetConnected, TargetFailed, StartNext, Put, Marked, Trying;
    var v := ViewOf(w, sid);
    ConnectingIdle(v);
    if io.soError == Reported(0) {
      assert v.h.tried != [] by { SucceededHist(v); }
      TargetConnectedIs(w, sid);
      CommitPast(w, sid, Succeeded(v), x);
    } else {
      var errno := if io.soError.Reported? then io.soError.error else io.soError.errno;
      AttemptOver(w, sid, errno);
      AttemptOverPast(w, sid, errno, x);
      AttemptOverPast(w, sid, errno, sid);
      var r := Unregister(Put(MarkLastTry(w, sid, Failed(errno)), sid, v.s.(lastError := errno)), v.s.targetFd.value);
      OpenIsRegistered(r, sid);
      CursorIsBacked(r, sid);
      StartNextPast(r, sid, io.attempts, x);
      StartNextPast(r, sid, io.attempts, sid);
      TargetFailedPast(StartNext(r, sid, io.attempts), sid, x);
      hide Past;
    }
  }

  lemma CursorIsBacked(w: World, sid: Sid)
    requires InvExcept(w, sid) && Live(w, sid) && Trying(ViewOf(w, sid), [])
    ensures w.heap[sid].cursor != [] ==> w.heap[sid].addresses.Some? && w.heap[sid].addresses.value in w.lists
  {
    assert OwnRequests(w, sid);
  }

  /** The failed attempt is marked with its errno. */
  lemma AttemptOverPast(w: World, sid: Sid, errno: int, x: Sid)
    requires InvExcept(w, sid) && Live(w, sid) && ConnectingView(ViewOf(w, sid))
    ensures w.heap[sid].targetFd.Some? && Past(w, sid).tried != []
    ensures var s, h := w.heap[sid], Past(w, sid);
            var r := Unregister(Put(MarkLastTry(w, sid, Failed(errno)), sid, s.(lastError := errno)), s.targetFd.value);
            && |r.hist| == |w.hist| && r.open == w.open - {s.targetFd.value}
            && Past(r, x) == if x == sid then h.(tried := Marked(h.tried, Failed(errno))) else Past(w, x)
  {
    hide InvExcept, ConnectingView, Unregister, MarkLastTry, Commit, HistOk, MetersMatch, Trying, Marked;
    var v := ViewOf(w, sid);
    ConnectingIdle(v);
    LastFailedMoves(v, errno);
    LastFailedIs(w, sid, errno);
    var v1 := LastFailed(v, errno);
    CommitKeeps(w, sid, v1);
    CommitView(w, sid, v1);
    OpenIsRegistered(w, sid);
    CommitOpen(w, sid, v1);
    CommitPast(w, sid, v1, x);
    var c := Commit(w, sid, v1);
    DetachedView(c, sid);
    SamePast(c, Detached(c, sid), x);
  }

  lemma TakeAnswerSilent(w: World, sid: Sid, j: Jid, io: Io, x: Sid)
    requires Live(w, sid) && w.heap[sid].job == Some(j) && j in w.jobs && w.open == w.table.Keys
    requires w.jobs[j].result ==> w.jobs[j].status == 0 && j in w.lists
    requires w.heap[sid].addresses.None? && w.heap[sid].cursor == []
    ensures Silent(w, TakeAnswer(w, w.heap[sid].clientFd.value, sid, j, io), x)
  {
    hide TakeAnswer, Refuse, SetInterest, StartNext, AfterStart, Commit;
    var fd := w.heap[sid].clientFd.value;
    TakeAnswerIs(w, sid, j, io);
    var t := Taken(w, sid);
    SamePast(w, t, x);
    SamePast(w, t, sid);
    if !w.jobs[j].result {
      var code := ReplyForGaiError(w.jobs[j].status);
      RefusePast(t, sid, code, true, x);
      SetInterestPast(Refuse(t, sid, code, true), fd, WRITE, x);
    } else {
      var v1 := Resolved(ViewOf(t, sid), j, w.lists[j]);
      CommitOpen(t, sid, v1);
      CommitPast(t, sid, v1, x);
      CommitPast(t, sid, v1, sid);
      CommitView(t, sid, v1);
      var c := Commit(t, sid, v1);
      assert c.lists == w.lists by { CommitLists(t, sid, v1); }
      StartNextPast(c, sid, io.attempts, x);
      StartNextPast(c, sid, io.attempts, sid);
      AfterStartPast(StartNext(c, sid, io.attempts), fd, sid, x);
    }
    hide Past;
  }

  lemma CommitLists(w: World, sid: Sid, v: View)
    requires Live(w, sid)
    ensures Commit(w, sid, v).lists == w.lists
  {
  }

  // ---------------------------------------------------------------- one event

  /** What session `x` has on record once session `sid` moved `f`. */
  ghost predicate Adds(w: World, r: World, sid: Sid, f: Freight, x: Sid) {
    Recorded(Past(r, x)) == Plus(Recorded(Past(w, x)), if x == sid then f else STILL)
  }

  lemma SilentAdds(w: World, r: World, sid: Sid, x: Sid)
    requires Silent(w, r, x)
    ensures Adds(w, r, sid, STILL, x)
  {
    PlusStill(Recorded(Past(w, x)));
  }

  lemma ExitAdds(w: World, sid: Sid, r: World, e: Exit, f: Freight, x: Sid)
    requires InvExcept(w, sid) && Leaves(w, sid, r, e) && Recorded(e.v.h) == Plus(Recorded(ViewOf(w, sid).h), f)
    ensures Adds(w, r, sid, f, x)
  {
    hide InvExcept, Plus, Moved, Settled, Apply;
    LeavesPast(w, sid, r, e, x);
    PlusStill(Recorded(Past(w, x)));
  }

  lemma ClientReadAdds(w: World, fd: Fd, sid: Sid, io: Io, x: Sid)
    requires Ready0(w, sid, fd) && ClientInterest(w, sid).read
    ensures var f := if w.heap[sid].relayStarted then Freight(Got(io.recv), Next(Got(io.recv), 0, Accepted(io.sends)), [], []) else STILL;
            Adds(w, ClientRead(w, fd, sid, io), sid, f, x)
  {
    hide InvExcept, Inv, Good, Sound, Undecided, ClientReadRelay, ReadGreeting, ReadAuth, ReadRequest, CloseConnection,
      Leaves, UpRead, Adds, Plus, Accepted, Got, Next, Apply, Moved, Settled, Commit;
    var v := ViewOf(w, sid);
    ReadArmed(v);
    SoundFromGood(w, sid);
    PlusStill(Recorded(v.h));
    if v.s.stage == Relay {
      ReadRelayLeaves(w, fd, sid, io);
      UpReadFlow(v, io);
      ExitAdds(w, sid, ClientReadRelay(w, fd, sid, io), UpRead(v, io),
               Freight(Got(io.recv), Next(Got(io.recv), 0, Accepted(io.sends)), [], []), x);
    } else {
      NotYetStarted(v);
      HandshakeReadAdds(w, fd, sid, io, x);
    }
  }

  lemma NotYetStarted(v: View)
    requires Good(v) && v.s.stage != Relay
    ensures !v.s.relayStarted
  {
  }

  lemma EndLeaves(w: World, sid: Sid)
    requires Live(w, sid) && Good(ViewOf(w, sid))
    ensures Leaves(w, sid, CloseConnection(w, sid), End(ViewOf(w, sid))) && Leaves(w, sid, w, Stay(ViewOf(w, sid)))
  {
    hide CloseConnection, Good;
    CommitNothing(w, sid);
    GoodMoves(ViewOf(w, sid));
  }

  lemma HandshakeReadAdds(w: World, fd: Fd, sid: Sid, io: Io, x: Sid)
    requires Ready0(w, sid, fd) && ClientInterest(w, sid) == READ && NoReply(w.heap[sid]) && |w.heap[sid].readBuf| <= 512
    requires w.heap[sid].stage == Greeting || w.heap[sid].stage == Auth || w.heap[sid].stage == Request
    ensures Adds(w, ClientRead(w, fd, sid, io), sid, STILL, x)
  {
    hide InvExcept, Inv, Good, ReadGreeting, ReadAuth, ReadRequest, CloseConnection, Leaves, Adds, Plus, GreetingRead, AuthRead, Commit;
    var v := ViewOf(w, sid);
    PlusStill(Recorded(v.h));
    EndLeaves(w, sid);
    if io.recv.Received? {
      var got := Take(io.recv.bytes, BUFFER_SIZE - |v.s.readBuf|);
      if got == [] {
        ExitAdds(w, sid, CloseConnection(w, sid), End(v), STILL, x);
      } else {
        NegotiationSilent(v, got, io.users);
        var w1 := Put(w, sid, Longer(v, got).s);
        if v.s.stage == Greeting {
          GreetingLeaves(w, fd, sid, got, io.users);
          ExitAdds(w, sid, ReadGreeting(w1, fd, sid, io.users), GreetingRead(Longer(v, got), io.users), STILL, x);
        } else if v.s.stage == Auth {
          AuthLeaves(w, fd, sid, got, io.users);
          ExitAdds(w, sid, ReadAuth(w1, fd, sid, io.users), AuthRead(Longer(v, got), io.users), STILL, x);
        } else {
          OpenIsRegistered(w, sid);
          RequestIsBare(v);
          RequestSilent(w, sid, got, io, x);
          SilentAdds(w, ReadRequest(w1, fd, sid, io), sid, x);
        }
      }
    } else if io.recv.RecvFailed? {
      ExitAdds(w, sid, CloseConnection(w, sid), End(v), STILL, x);
    } else {
      ExitAdds(w, sid, w, Stay(v), STILL, x);
    }
  }

  lemma GreetingLeaves(w: World, fd: Fd, sid: Sid, got: seq<byte>, users: UserMap)
    requires Ready0(w, sid, fd) && w.heap[sid].stage == Greeting
    ensures var v := ViewOf(w, sid);
            Leaves(w, sid, ReadGreeting(Put(w, sid, Longer(v, got).s), fd, sid, users), GreetingRead(Longer(v, got), users))
  {
    hide InvExcept, Good, ReadGreeting, GreetingRead, Apply;
    GreetingFollows(ViewOf(w, sid), got, users);
    ReadGreetingIs(w, fd, sid, got, users);
  }

  lemma AuthLeaves(w: World, fd: Fd, sid: Sid, got: seq<byte>, users: UserMap)
    requires Ready0(w, sid, fd) && w.heap[sid].stage == Auth && NoReply(w.heap[sid])
    ensures var v := ViewOf(w, sid);
            Leaves(w, sid, ReadAuth(Put(w, sid, Longer(v, got).s), fd, sid, users), AuthRead(Longer(v, got), users))
  {
    hide InvExcept, Good, ReadAuth, AuthRead, Apply;
    AuthFollows(ViewOf(w, sid), got, users);
    ReadAuthIs(w, fd, sid, got, users);
  }

  lemma ClientWriteAdds(w: World, fd: Fd, sid: Sid, sends: seq<Send>, x: Sid)
    requires Ready0(w, sid, fd) && ClientInterest(w, sid).write
    ensures var s := w.heap[sid];
            var f := if s.relayStarted then Freight([], [], [], Next(s.t2c, s.t2cOff, Accepted(sends))) else STILL;
            Adds(w, ClientWrite(w, fd, sid, sends), sid, f, x)
  {
    hide InvExcept, Good, Sound, ClientWrite, Leaves, Written, Adds, Plus, Accepted, Next;
    var v := ViewOf(w, sid);
    PlusStill(Recorded(v.h));
    WriteArmed(v);
    SoundFromGood(w, sid);
    WriteLeaves(w, fd, sid, sends);
    WrittenFlow(v, sends);
    ExitAdds(w, sid, ClientWrite(w, fd, sid, sends), Written(v, sends),
             if v.s.relayStarted then Freight([], [], [], Next(v.s.t2c, v.s.t2cOff, Accepted(sends))) else STILL, x);
  }

  lemma TargetReadAdds(w: World, fd: Fd, sid: Sid, io: Io, x: Sid)
    requires TargetReady(w, sid, fd) && w.table[fd].interest.read
    ensures w.heap[sid].relayStarted && w.heap[sid].t2c == []
    ensures Adds(w, TargetRead(w, fd, sid, io), sid, Freight([], [], Got(io.recv), Next(Got(io.recv), 0, Accepted(io.sends))), x)
  {
    hide InvExcept, Good, Sound, TargetRead, Leaves, DownRead, Adds, Plus, Accepted, Next, Got;
    var v := ViewOf(w, sid);
    TargetArmed(v);
    TargetReadsEmpty(v);
    SoundFromGood(w, sid);
    TargetReadLeaves(w, fd, sid, io);
    DownReadFlow(v, io);
    ExitAdds(w, sid, TargetRead(w, fd, sid, io), DownRead(v, io),
             Freight([], [], Got(io.recv), Next(Got(io.recv), 0, Accepted(io.sends))), x);
  }

  /** In the relay, interests follow from the buffers. */
  lemma TargetReadsEmpty(v: View)
    requires Good(v) && v.s.relayStarted
    ensures v.target.Some? && (v.target.value.read <==> v.s.t2c == []) && (v.target.value.write <==> v.s.c2t != [])
    ensures (v.client.read <==> v.s.c2t == []) && (v.client.write <==> v.s.t2c != []) && RelayShape(v.s)
  {
    hide HistOk, Story;
  }

  lemma TargetWriteAdds(w: World, fd: Fd, sid: Sid, io: Io, x: Sid)
    requires TargetReady(w, sid, fd) && w.table[fd].interest.write
    ensures var s := w.heap[sid];
            var f := if s.relayStarted then Freight([], Next(s.c2t, s.c2tOff, Accepted(io.sends)), [], []) else STILL;
            Adds(w, TargetWrite(w, fd, sid, io), sid, f, x)
  {
    hide InvExcept, Good, Sound, TargetFlush, Leaves, UpFlushed, Adds, Plus, Accepted, Next;
    var v := ViewOf(w, sid);
    TargetArmed(v);
    SoundFromGood(w, sid);
    if v.s.stage == Connecting {
      NotYetStarted(v);
      ConnectingSilent(w, sid, io, x);
      SilentAdds(w, TargetWrite(w, fd, sid, io), sid, x);
    } else {
      FlushLeaves(w, sid, io.sends);
      FlushedFlow(v, io.sends);
      ExitAdds(w, sid, TargetFlush(w, sid, io.sends), UpFlushed(v, io.sends),
               Freight([], Next(v.s.c2t, v.s.c2tOff, Accepted(io.sends)), [], []), x);
    }
  }

  lemma ReadableAdds(w: World, fd: Fd, io: Io, x: Sid)
    requires Inv(w) && fd in w.table && w.table[fd].interest.read
    ensures var item := w.table[fd];
            && item.sid in w.heap
            && var s := w.heap[item.sid]; var got := Got(io.recv); var out := Next(got, 0, Accepted(io.sends));
            && (s.relayStarted ==> if item.kind == ClientItem then s.c2t == [] else s.t2c == [])
            && Adds(w, Readable(w, fd, item.kind, item.sid, io), item.sid,
                    if !s.relayStarted then STILL
                    else if item.kind == ClientItem then Freight(got, out, [], []) else Freight([], [], got, out), x)
  {
    hide Inv, InvExcept, Good, ClientRead, TargetRead, Adds, Accepted, Next, Got;
    Lookup1(w, fd);
    var item := w.table[fd];
    if w.heap[item.sid].relayStarted { TargetReadsEmpty(ViewOf(w, item.sid)); }
    if item.kind == ClientItem { ClientReadAdds(w, fd, item.sid, io, x); } else { TargetReadAdds(w, fd, item.sid, io, x); }
  }

  lemma WritableAdds(w: World, fd: Fd, io: Io, x: Sid)
    requires Inv(w) && fd in w.table && w.table[fd].interest.write
    ensures var item := w.table[fd];
            && item.sid in w.heap
            && var s := w.heap[item.sid];
            && (s.relayStarted ==> if item.kind == ClientItem then s.t2c != [] else s.c2t != [])
            && Adds(w, Writable(w, fd, item.kind, item.sid, io), item.sid,
                    if !s.relayStarted then STILL
                    else if item.kind == ClientItem then Freight([], [], [], Next(s.t2c, s.t2cOff, Accepted(io.sends)))
                    else Freight([], Next(s.c2t, s.c2tOff, Accepted(io.sends)), [], []), x)
  {
    hide Inv, InvExcept, Good, ClientWrite, TargetWrite, Adds, Accepted, Next;
    Lookup1(w, fd);
    var item := w.table[fd];
    if w.heap[item.sid].relayStarted { TargetReadsEmpty(ViewOf(w, item.sid)); }
    if item.kind == ClientItem { ClientWriteAdds(w, fd, item.sid, io.sends, x); } else { TargetWriteAdds(w, fd, item.sid, io, x); }
  }

  /** Which descriptors belong to whom, and what they wait for. */
  lemma Whose(w: World, fd: Fd, sid: Sid)
    requires Inv(w) && sid in w.heap
    ensures var s := w.heap[sid];
            && (s.clientFd == Some(fd) <==> fd in w.table && w.table[fd].sid == sid && w.table[fd].kind == ClientItem)
            && (s.targetFd == Some(fd) <==> fd in w.table && w.table[fd].sid == sid && w.table[fd].kind == TargetItem)
            && (s.relayStarted && s.clientFd == Some(fd)
                ==> (w.table[fd].interest.read <==> s.c2t == []) && (w.table[fd].interest.write <==> s.t2c != []))
            && (s.relayStarted && s.targetFd == Some(fd)
                ==> (w.table[fd].interest.read <==> s.t2c == []) && (w.table[fd].interest.write <==> s.c2t != []))
  {
    hide Inv, InvExcept, HistOk, Settled, Good;
    Facts(w, sid);
    assert Good(ViewOf(w, sid)) by { SettledIsGood(w, sid); }
    if fd in w.table { Lookup1(w, fd); }
    if w.heap[sid].relayStarted { TargetReadsEmpty(ViewOf(w, sid)); }
  }

  lemma DispatchAdds(w: World, e: Event, x: Sid)
    requires Inv(w) && e.Ready? && OneWay(e)
    ensures Recorded(Past(Step(w, e), x)) == Plus(Recorded(Past(w, x)), Moves(w, e, x))
  {
    hide Inv, Readable, Writable, Plus, Accepted, Next, Got;
    PlusStill(Recorded(Past(w, x)));
    if x in w.heap { Whose(w, e.fd, x); }
    if e.fd in w.table {
      if e.readable && w.table[e.fd].interest.read { ReadableAdds(w, e.fd, e.onRead, x); }
      if e.writable && w.table[e.fd].interest.write { WritableAdds(w, e.fd, e.onWrite, x); }
    }
  }

  lemma DrainSilent(w: World, io: Io, x: Sid)
    requires Inv(w) && Awaited(w)
    ensures Silent(w, DrainOne(w, io), x)
  {
    hide Inv, TakeAnswer, DrainOne, Silent;
    if w.queue != [] {
      var fd := w.queue[0];
      assert Due(w, fd);
      var y := w.table[fd].sid;
      var j := w.heap[y].job.value;
      DrainIs(w, io);
      AnswerIsReady(w, y, j);
      TakeAnswerSilent(Popped(w), y, j, io, x);
      SamePast(w, Popped(w), x);
      SameIsSilent(w, Popped(w), x);
      SilentChain(w, Popped(w), DrainOne(w, io), x);
    } else {
      NothingDrained(w, io);
      SameIsSilent(w, w, x);
    }
  }

  lemma SilentChain(w: World, w1: World, w2: World, x: Sid)
    requires Silent(w, w1, x) && Silent(w1, w2, x)
    ensures Silent(w, w2, x)
  {
  }

  lemma ThreadSilent(w: World, j: Jid, answer: Answer, x: Sid)
    requires Inv(w)
    ensures Silent(w, ThreadStep(w, j, answer), x)
  {
    hide Inv, ThreadStep, Silent;
    assert Resolution(w) by { HasResolution(w); }
    ThreadStepLookups(w, j, answer);
    SamePast(w, ThreadStep(w, j, answer), x);
    SameIsSilent(w, ThreadStep(w, j, answer), x);
  }

  lemma HasResolution(w: World)
    requires Inv(w)
    ensures Resolution(w)
  {
  }

  lemma AcceptSilent(w: World, want: Fd, x: Sid)
    ensures Silent(w, AcceptClient(w, want), x)
  {
    hide Fresh;
  }

  /** Every event adds to the record of every session what the results of its calls say, and nothing else. */
  lemma MovesAreMade(w: World, e: Event, x: Sid)
    requires Inv(w) && Awaited(w) && OneWay(e)
    ensures Recorded(Past(Step(w, e), x)) == Plus(Recorded(Past(w, x)), Moves(w, e, x))
  {
    PlusStill(Recorded(Past(w, x)));
    if e.Ready? {
      DispatchAdds(w, e, x);
    } else {
      hide Inv, Awaited, AcceptClient, DrainOne, ThreadStep, Plus;
      match e {
        case Accept(want) => AcceptSilent(w, want, x);
        case Drain(io) => DrainSilent(w, io, x);
        case ThreadRuns(j, answer) => ThreadSilent(w, j, answer, x);
        case _ =>
      }
    }
  }

  // ---------------------------------------------------------------- events that go both ways

  /** A descriptor that is readable and writable is handled as one that is readable and then writable. */
  lemma TwoWays(w: World, fd: Fd, a: Io, b: Io)
    requires Inv(w)
    ensures Step(w, Ready(fd, true, true, a, b)) == Step(Step(w, Ready(fd, true, false, a, b)), Ready(fd, false, true, a, b))
  {
    hide Inv, Readable, Writable, Work, SameAt;
    if fd in w.table {
      var item := w.table[fd];
      var w1 := if item.interest.read then Readable(w, fd, item.kind, item.sid, a) else w;
      if item.interest.read {
        ReadableKeeps(w, fd, a);
        if fd in w1.table { SameOwner(w, w1, fd); }
      }
    }
  }

  ghost function Split(e: Event): seq<Event> {
    if OneWay(e) then [e] else [e.(writable := false), e.(readable := false)]
  }

  /** The same events with every two-way one split. */
  ghost function Singles(events: seq<Event>): seq<Event> {
    if events == [] then [] else Singles(events[..|events| - 1]) + Split(events[|events| - 1])
  }

  lemma RunOne(w: World, a: seq<Event>, e: Event)
    ensures Run(w, a + [e]) == Step(Run(w, a), e)
  {
    hide Step;
    assert (a + [e])[..|a|] == a;
  }

  lemma SplitRuns(a: seq<Event>, e: Event)
    requires Inv(Run(START, a))
    ensures Run(START, a + Split(e)) == Step(Run(START, a), e)
  {
    hide Step, Inv, Run;
    if OneWay(e) {
      RunOne(START, a, e);
    } else {
      var first, second := e.(writable := false), e.(readable := false);
      assert a + Split(e) == (a + [first]) + [second];
      RunOne(START, a, first);
      RunOne(START, a + [first], second);
      TwoWays(Run(START, a), e.fd, e.onRead, e.onWrite);
    }
  }

  lemma {:induction false} SinglesRun(events: seq<Event>)
    ensures Run(START, Singles(events)) == Run(START, events)
    decreases |events|
  {
    hide Step, Inv, Awaited, Split;
    if events != [] {
      var init, e := events[..|events| - 1], events[|events| - 1];
      SinglesRun(init);
      Reachable(init);
      SplitRuns(Singles(init), e);
    }
  }

  lemma {:induction false} SinglesAreOneWay(events: seq<Event>)
    ensures forall k | 0 <= k < |Singles(events)| :: OneWay(Singles(events)[k])
    decreases |events|
  {
    if events != [] { SinglesAreOneWay(events[..|events| - 1]); }
  }

  // ---------------------------------------------------------------- whole runs

  /** What one-way events move through the relay of session `sid`, all together. */
  ghost function Carriage(events: seq<Event>, sid: Sid): Freight {
    if events == [] then STILL
    else
      var init := events[..|events| - 1];
      Plus(Carriage(init, sid), Moves(Run(START, init), events[|events| - 1], sid))
  }

  lemma {:induction false} RecordsAreReal(events: seq<Event>, sid: Sid)
    requires forall k | 0 <= k < |events| :: OneWay(events[k])
    ensures Recorded(Past(Run(START, events), sid)) == Carriage(events, sid)
    decreases |events|
  {
    hide Step, Inv, Awaited, Moves, Plus;
    if events != [] {
      var init, e := events[..|events| - 1], events[|events| - 1];
      RecordsAreReal(init, sid);
      Reachable(init);
      MovesAreMade(Run(START, init), e, sid);
    }
  }

  /** The relay in any run, told from the results of recv and send: what the peers sent is what the kernel took towards the
      other side, followed by what is buffered; once the session is gone, what was taken is a prefix, and all of it when
      the peer's stream ended. */
  lemma RelayForwards(events: seq<Event>, sid: Sid)
    ensures var w := Run(START, events); var f := Carriage(Singles(events), sid);
            && f.upOut <= f.upIn && f.downOut <= f.downIn
            && (sid in w.heap ==>
                  && w.heap[sid].c2tOff <= |w.heap[sid].c2t| && f.upIn == f.upOut + w.heap[sid].c2t[w.heap[sid].c2tOff..]
                  && w.heap[sid].t2cOff <= |w.heap[sid].t2c| && f.downIn == f.downOut + w.heap[sid].t2c[w.heap[sid].t2cOff..])
            && (Past(w, sid).ending == ClientStreamEnded ==> f.upOut == f.upIn)
            && (Past(w, sid).ending == TargetStreamEnded ==> f.downOut == f.downIn)
  {
    hide Carriage, Run, Singles;
    SinglesRun(events);
    SinglesAreOneWay(events);
    RecordsAreReal(Singles(events), sid);
    RelayConserves(events, sid);
    EndedStreamsAreDrained(events, sid);
  }

  /** How many bytes the kernel took in the relays of the first `n` sessions. */
  ghost function Carried(events: seq<Event>, n: nat, up: bool): nat {
    if n == 0 then 0
    else Carried(events, n - 1, up) + if up then |Carriage(events, n - 1).upOut| else |Carriage(events, n - 1).downOut|
  }

  lemma {:induction false} SumIsCarried(w: World, events: seq<Event>, n: nat, up: bool)
    requires n <= |w.hist| && forall sid | 0 <= sid < n :: Recorded(Past(w, sid)) == Carriage(events, sid)
    ensures Sum(w.hist[..n], if up then Upstream else Downstream) == Carried(events, n, up)
    decreases n
  {
    hide Carriage;
    if n > 0 {
      SumIsCarried(w, events, n - 1, up);
      assert w.hist[..n][..n - 1] == w.hist[..n - 1];
      assert Recorded(Past(w, n - 1)) == Carriage(events, n - 1);
    }
  }

  /** The byte counters are the bytes the kernel took, in all sessions together. */
  lemma BytesAreCounted(events: seq<Event>)
    ensures var w := Run(START, events);
            && w.metrics.upstream == Carried(Singles(events), |w.hist|, true)
            && w.metrics.downstream == Carried(Singles(events), |w.hist|, false)
  {
    hide Carriage, Run, Singles, Carried, Sum;
    var w := Run(START, events);
    SinglesRun(events);
    SinglesAreOneWay(events);
    forall sid | 0 <= sid < |w.hist| ensures Recorded(Past(w, sid)) == Carriage(Singles(events), sid) {
      RecordsAreReal(Singles(events), sid);
    }
    SumIsCarried(w, Singles(events), |w.hist|, true);
    SumIsCarried(w, Singles(events), |w.hist|, false);
    assert w.hist[..|w.hist|] == w.hist;
    CountersAreExact(events);
  }
}
