/** Why a session ends: the exact conditions on what the calls of one event return. */
module Endings {
  import opened Basics
  import opened Socks5
  import opened Proxy
  import opened Wire
  import opened Invariant
  import opened Teardown
  import opened Local
  import opened RelaySteps
  import opened HandshakeSteps
  import opened Isolation
  import opened Handlers
  import opened Events
  import opened Progress
  import opened Traffic

  /** recv reports the end of the stream or an error. */
  ghost predicate Gone(recv: Recv) {
    recv.RecvFailed? || recv == Received([])
  }

  /** The kernel breaks off before the rest of a buffer is out. */
  ghost predicate CutOff(buffer: seq<byte>, off: nat, sends: seq<Send>) {
    off + Accepted(sends) < |buffer| && Lost(sends)
  }

  /** What the read buffer holds after a recv during the negotiation. */
  ghost function Filled(s: Session, recv: Recv): seq<byte> {
    if !recv.Received? || |s.readBuf| > 4096 then s.readBuf
    else if |s.readBuf| + |recv.bytes| <= 4096 then s.readBuf + recv.bytes
    else s.readBuf + recv.bytes[..4096 - |s.readBuf|]
  }

  ghost predicate Negotiates(s: Session) {
    (s.stage == Greeting || s.stage == Auth || s.stage == Request) && s.writeBuf == []
  }

  /** The client's descriptor is readable. */
  ghost predicate EndsByClientRead(s: Session, io: Io) {
    if Negotiates(s) then
      || Gone(io.recv)
      || (s.stage == Greeting && io.recv.Received? && |Filled(s, io.recv)| >= 2 && Filled(s, io.recv)[0] != 5)
    else
      s.relayStarted && s.c2t == [] && (Gone(io.recv) || CutOff(Got(io.recv), 0, io.sends))
  }

  /** The client's descriptor is writable. */
  ghost predicate EndsByClientWrite(s: Session, sends: seq<Send>) {
    if s.writeBuf != [] then
      CutOff(s.writeBuf, s.writeOff, sends) || (s.stage == Closing && s.writeOff + Accepted(sends) >= |s.writeBuf|)
    else s.relayStarted && CutOff(s.t2c, s.t2cOff, sends)
  }

  /** Session `sid` ends with event `e`: a peer is gone, the kernel broke off, the greeting is no SOCKS 5, or the last reply
      of a session that is closing went out. */
  ghost predicate Ends(w: World, e: Event, sid: Sid)
    requires sid in w.heap
  {
    var s := w.heap[sid];
    && e.Ready?
    && (|| (e.readable && s.clientFd == Some(e.fd) && EndsByClientRead(s, e.onRead))
        || (e.readable && s.targetFd == Some(e.fd) && s.relayStarted && s.t2c == []
            && (Gone(e.onRead.recv) || CutOff(Got(e.onRead.recv), 0, e.onRead.sends)))
        || (e.writable && s.clientFd == Some(e.fd) && EndsByClientWrite(s, e.onWrite.sends))
        || (e.writable && s.targetFd == Some(e.fd) && s.relayStarted && CutOff(s.c2t, s.c2tOff, e.onWrite.sends)))
  }

  // ---------------------------------------------------------------- exits

  /** A session is there after a handler exactly when the handler let it stay. */
  lemma ExitStays(w: World, sid: Sid, r: World, e: Exit)
    requires InvExcept(w, sid) && Leaves(w, sid, r, e)
    ensures sid in r.heap <==> e.Stay?
    ensures e.Stay? ==> r.heap[sid] == e.v.s
  {
    hide InvExcept, Inv, Settled, Moved, CloseConnection, Unregister;
    CommitKeeps(w, sid, e.v);
    assert SameTies(ViewOf(w, sid), e.v) by { MovedTies(ViewOf(w, sid), e.v); }
    CommitView(w, sid, e.v);
    var c := Commit(w, sid, e.v);
    match e {
      case Stay(_) =>
      case End(_) => CloseConnectionEnds(c, sid);
      case Drop(_) => UnregisterClientEnds(c, sid);
    }
  }

  lemma FlushStays(v: View, sends: seq<Send>)
    requires v.s.c2tOff <= |v.s.c2t| && v.s.t2cOff <= |v.s.t2c|
    ensures UpFlushed(v, sends).Stay? <==> !CutOff(v.s.c2t, v.s.c2tOff, sends)
    ensures DownFlushed(v, sends).Stay? <==> !CutOff(v.s.t2c, v.s.t2cOff, sends)
  {
    FlushMoves(v.s.c2t, v.s.c2tOff, sends);
    FlushMoves(v.s.t2c, v.s.t2cOff, sends);
    hide Flush, Slice, Accepted, Lost;
  }

  lemma UpReadStays(v: View, io: Io)
    requires RelayShape(v.s) && v.s.c2t == []
    ensures UpRead(v, io).Stay? <==> !(Gone(io.recv) || CutOff(Got(io.recv), 0, io.sends))
  {
    hide UpFlushed, Accepted, Lost;
    GotIsTake(io.recv);
    if Got(io.recv) != [] { FlushStays(UpReceived(v, Got(io.recv)), io.sends); }
  }

  lemma DownReadStays(v: View, io: Io)
    requires RelayShape(v.s) && v.s.t2c == []
    ensures DownRead(v, io).Stay? <==> !(Gone(io.recv) || CutOff(Got(io.recv), 0, io.sends))
  {
    hide DownFlushed, Accepted, Lost;
    GotIsTake(io.recv);
    if Got(io.recv) != [] { FlushStays(DownReceived(v, Got(io.recv)), io.sends); }
  }

  /** What client_write makes of a session that has a reply to send. */
  ghost function Sending(s: Session, sends: seq<Send>): Session {
    if s.writeOff + Accepted(sends) < |s.writeBuf| then s.(writeOff := s.writeOff + Accepted(sends))
    else s.(writeBuf := [], writeOff := 0, relayStarted := s.stage == Relay)
  }

  lemma ReplyStays(v: View, sends: seq<Send>)
    requires ReplyPending(v.s) && !v.s.relayStarted
    ensures Written(v, sends).Stay? <==> !EndsByClientWrite(v.s, sends)
    ensures Written(v, sends).Stay? ==> Written(v, sends).v.s == Sending(v.s, sends)
  {
    hide Flush, DownFlushed, Accepted, Lost;
    FlushMoves(v.s.writeBuf, v.s.writeOff, sends);
  }

  lemma RelayStays(v: View, sends: seq<Send>)
    requires RelayShape(v.s)
    ensures Written(v, sends).Stay? <==> !EndsByClientWrite(v.s, sends)
  {
    hide Flush, DownFlushed, Accepted, Lost;
    FlushMoves(v.s.writeBuf, v.s.writeOff, sends);
    FlushStays(v, sends);
  }

  lemma NoReplyInTheRelay(v: View)
    requires Good(v)
    ensures v.s.writeBuf != [] ==> !v.s.relayStarted && ReplyPending(v.s)
  {
    hide HistOk, Story;
  }

  lemma WrittenStays(v: View, sends: seq<Send>)
    requires Good(v) && (ReplyPending(v.s) || RelayShape(v.s))
    ensures Written(v, sends).Stay? <==> !EndsByClientWrite(v.s, sends)
    ensures Written(v, sends).Stay? && v.s.writeBuf != [] ==> Written(v, sends).v.s == Sending(v.s, sends)
  {
    hide Good, Written, EndsByClientWrite, Sending;
    NoReplyInTheRelay(v);
    if v.s.writeBuf != [] { ReplyStays(v, sends); } else { RelayStays(v, sends); }
  }

  // ---------------------------------------------------------------- handlers

  lemma FilledIs(s: Session, recv: Recv)
    requires |s.readBuf| <= 512
    ensures recv.Received? ==> Filled(s, recv) == s.readBuf + Take(recv.bytes, BUFFER_SIZE - |s.readBuf|)
    ensures recv.Received? ==> (Take(recv.bytes, BUFFER_SIZE - |s.readBuf|) == [] <==> recv.bytes == [])
  {
  }

  lemma GreetingStays(v: View, got: seq<byte>, users: UserMap)
    ensures var b := v.s.readBuf + got; GreetingRead(Longer(v, got), users).Stay? <==> !(|b| >= 2 && b[0] != 5)
    ensures AuthRead(Longer(v, got), users).Stay?
  {
    hide DecideAuth;
  }

  lemma HandshakeReadStays(w: World, fd: Fd, sid: Sid, io: Io)
    requires Ready0(w, sid, fd) && ClientInterest(w, sid) == READ && NoReply(w.heap[sid]) && |w.heap[sid].readBuf| <= 512
    requires Negotiates(w.heap[sid])
    ensures sid in ClientRead(w, fd, sid, io).heap <==> !EndsByClientRead(w.heap[sid], io)
  {
    hide InvExcept, Inv, Good, ReadGreeting, ReadAuth, ReadRequest, CloseConnection, Leaves, GreetingRead, AuthRead, Commit,
         Forward, Filled;
    var v := ViewOf(w, sid);
    FilledIs(v.s, io.recv);
    EndLeaves(w, sid);
    if io.recv.Received? {
      var got := Take(io.recv.bytes, BUFFER_SIZE - |v.s.readBuf|);
      if got == [] {
        ExitStays(w, sid, CloseConnection(w, sid), End(v));
      } else {
        GreetingStays(v, got, io.users);
        var w1 := Put(w, sid, Longer(v, got).s);
        if v.s.stage == Greeting {
          GreetingLeaves(w, fd, sid, got, io.users);
          ExitStays(w, sid, ReadGreeting(w1, fd, sid, io.users), GreetingRead(Longer(v, got), io.users));
        } else if v.s.stage == Auth {
          AuthLeaves(w, fd, sid, got, io.users);
          ExitStays(w, sid, ReadAuth(w1, fd, sid, io.users), AuthRead(Longer(v, got), io.users));
        } else {
          RequestForward(w, sid, got, io);
        }
      }
    } else if io.recv.RecvFailed? {
      ExitStays(w, sid, CloseConnection(w, sid), End(v));
    }
  }

  lemma ClientReadStays(w: World, fd: Fd, sid: Sid, io: Io)
    requires Ready0(w, sid, fd) && ClientInterest(w, sid).read
    ensures sid in ClientRead(w, fd, sid, io).heap <==> !EndsByClientRead(w.heap[sid], io)
  {
    hide InvExcept, Inv, Good, Sound, Undecided, ClientReadRelay, Leaves, UpRead, Gone, CutOff, Filled, ReadGreeting, ReadAuth, ReadRequest,
      CloseConnection;
    var v := ViewOf(w, sid);
    ReadArmed(v);
    SoundFromGood(w, sid);
    if v.s.stage == Relay {
      ReadRelayLeaves(w, fd, sid, io);
      UpReadStays(v, io);
      ExitStays(w, sid, ClientReadRelay(w, fd, sid, io), UpRead(v, io));
    } else {
      HandshakeReadStays(w, fd, sid, io);
    }
  }

  lemma ClientWriteStays(w: World, fd: Fd, sid: Sid, sends: seq<Send>)
    requires Ready0(w, sid, fd) && ClientInterest(w, sid).write
    ensures var r := ClientWrite(w, fd, sid, sends); var s := w.heap[sid];
            && (sid in r.heap <==> !EndsByClientWrite(s, sends))
            && (sid in r.heap && s.writeBuf != [] ==> r.heap[sid] == Sending(s, sends))
  {
    hide InvExcept, Good, Sound, ClientWrite, Leaves, Written, EndsByClientWrite, Sending;
    var v := ViewOf(w, sid);
    WriteArmed(v);
    SoundFromGood(w, sid);
    WriteLeaves(w, fd, sid, sends);
    WrittenStays(v, sends);
    ExitStays(w, sid, ClientWrite(w, fd, sid, sends), Written(v, sends));
  }

  lemma TargetReadStays(w: World, fd: Fd, sid: Sid, io: Io)
    requires TargetReady(w, sid, fd) && w.table[fd].interest.read
    ensures w.heap[sid].relayStarted && w.heap[sid].t2c == []
    ensures sid in TargetRead(w, fd, sid, io).heap <==> !(Gone(io.recv) || CutOff(Got(io.recv), 0, io.sends))
  {
    hide InvExcept, Good, Sound, TargetRead, Leaves, DownRead, Gone, CutOff;
    var v := ViewOf(w, sid);
    TargetArmed(v);
    TargetReadsEmpty(v);
    SoundFromGood(w, sid);
    TargetReadLeaves(w, fd, sid, io);
    DownReadStays(v, io);
    ExitStays(w, sid, TargetRead(w, fd, sid, io), DownRead(v, io));
  }

  lemma TargetWriteStays(w: World, fd: Fd, sid: Sid, io: Io)
    requires TargetReady(w, sid, fd) && w.table[fd].interest.write
    ensures sid in TargetWrite(w, fd, sid, io).heap
            <==> !(w.heap[sid].relayStarted && CutOff(w.heap[sid].c2t, w.heap[sid].c2tOff, io.sends))
  {
    hide InvExcept, Good, Sound, TargetFlush, Leaves, UpFlushed, CutOff, Forward;
    var v := ViewOf(w, sid);
    TargetArmed(v);
    SoundFromGood(w, sid);
    if v.s.stage == Connecting {
      NotYetStarted(v);
      ConnectingForward(w, sid, io);
    } else {
      FlushLeaves(w, sid, io.sends);
      FlushStays(v, io.sends);
      ExitStays(w, sid, TargetFlush(w, sid, io.sends), UpFlushed(v, io.sends));
    }
  }

  // ---------------------------------------------------------------- events

  /** What the descriptors of a session are armed for, whatever its stage. */
  lemma Arms(w: World, sid: Sid, fd: Fd)
    requires Inv(w) && sid in w.heap
    ensures var s := w.heap[sid];
            && (s.clientFd == Some(fd) ==> fd in w.table && w.table[fd].sid == sid && w.table[fd].kind == ClientItem
                                           && (w.table[fd].interest.read <==> Negotiates(s) || (s.relayStarted && s.c2t == []))
                                           && (w.table[fd].interest.write <==> s.writeBuf != [] || (s.relayStarted && s.t2c != [])))
            && (s.targetFd == Some(fd) ==> fd in w.table && w.table[fd].sid == sid && w.table[fd].kind == TargetItem
                                           && (w.table[fd].interest.read <==> s.relayStarted && s.t2c == [])
                                           && (w.table[fd].interest.write <==> s.stage == Connecting || (s.relayStarted && s.c2t != [])))
            && (s.relayStarted ==> s.writeBuf == [] && s.stage == Relay)
            && (s.clientFd == Some(fd) ==> s.targetFd != Some(fd))
  {
    hide Inv, InvExcept, HistOk, Story;
    Whose(w, fd, sid);
    Facts(w, sid);
  }

  lemma DispatchEnds(w: World, e: Event, sid: Sid)
    requires Inv(w) && sid in w.heap && e.Ready? && OneWay(e)
    ensures sid !in Step(w, e).heap <==> Ends(w, e, sid)
  {
    hide Inv, InvExcept, Good, ClientRead, ClientWrite, TargetRead, TargetWrite, EndsByClientRead, EndsByClientWrite, Gone, CutOff, Work,
      Negotiates;
    var s := w.heap[sid];
    Arms(w, sid, e.fd);
    Idle(s, e);
    if e.fd in w.table {
      Lookup1(w, e.fd);
      var item := w.table[e.fd];
      if item.sid == sid {
        Whose(w, e.fd, sid);
        if e.readable && item.interest.read {
          if item.kind == ClientItem { ClientReadStays(w, e.fd, sid, e.onRead); } else { TargetReadStays(w, e.fd, sid, e.onRead); }
        }
        if e.writable && item.interest.write {
          if item.kind == ClientItem {
            ClientWriteStays(w, e.fd, sid, e.onWrite.sends);
          } else {
            TargetWriteStays(w, e.fd, sid, e.onWrite);
          }
        }
      } else {
        DispatchKeeps(w, e.fd, e.readable, e.writable, e.onRead, e.onWrite);
        Elsewhere(w, Step(w, e), item.sid, sid);
      }
    }
  }

  /** A session that does not listen does not end by listening. */
  lemma Idle(s: Session, e: Event)
    requires e.Ready?
    ensures !Negotiates(s) && !(s.relayStarted && s.c2t == []) ==> !EndsByClientRead(s, e.onRead)
    ensures s.writeBuf == [] && !(s.relayStarted && s.t2c != []) ==> !EndsByClientWrite(s, e.onWrite.sends)
    ensures s.c2t == [] ==> !CutOff(s.c2t, s.c2tOff, e.onWrite.sends)
  {
  }

  /** In every run, a session ends with an event exactly when one of these reasons is there. */
  lemma SessionsEndForAReason(events: seq<Event>, e: Event, sid: Sid)
    requires OneWay(e)
    ensures var w := Run(START, events);
            sid in w.heap ==> (sid !in Step(w, e).heap <==> Ends(w, e, sid))
  {
    hide Inv, Awaited, Run, Step, Ends;
    Reachable(events);
    var w := Run(START, events);
    if sid in w.heap {
      if e.Ready? { DispatchEnds(w, e, sid); } else { OthersEndNothing(w, e, sid); }
    }
  }

  lemma OthersEndNothing(w: World, e: Event, sid: Sid)
    requires Inv(w) && Awaited(w) && sid in w.heap && !e.Ready?
    ensures sid in Step(w, e).heap && !Ends(w, e, sid)
  {
    hide Inv, Awaited, AcceptClient, DrainOne, ThreadStep, Dispatch, InvExcept, Settled, HistOk;
    Facts(w, sid);
    if e.Drain? { DrainForward(w, e.io, sid); } else { OtherEventsLeaveIt(w, e, sid); }
  }

  /** Replies: of a pending reply the client gets as many bytes as the kernel takes; once all are out the session reads on,
      relays, or is gone. */
  lemma RepliesGoOut(events: seq<Event>, fd: Fd, io: Io)
    ensures var w := Run(START, events); var r := Step(w, Ready(fd, false, true, io, io));
            forall sid | sid in w.heap && w.heap[sid].clientFd == Some(fd) && w.heap[sid].writeBuf != [] ::
              var s := w.heap[sid]; var n := s.writeOff + Accepted(io.sends);
              && (sid in r.heap <==> if n < |s.writeBuf| then !Lost(io.sends) else s.stage != Closing)
              && (sid in r.heap && n < |s.writeBuf| ==> r.heap[sid] == s.(writeOff := n))
              && (sid in r.heap && n >= |s.writeBuf| ==>
                    r.heap[sid] == s.(writeBuf := [], writeOff := 0, relayStarted := s.stage == Relay))
  {
    hide Inv, Awaited, Run, ClientWrite, Accepted, Lost, InvExcept, Good;
    Reachable(events);
    var w := Run(START, events);
    forall sid | sid in w.heap && w.heap[sid].clientFd == Some(fd) && w.heap[sid].writeBuf != []
      ensures var r := Step(w, Ready(fd, false, true, io, io)); var s := w.heap[sid];
              && (sid in r.heap <==> !EndsByClientWrite(s, io.sends)) && (sid in r.heap ==> r.heap[sid] == Sending(s, io.sends))
    {
      Arms(w, sid, fd);
      Lookup1(w, fd);
      ClientWriteStays(w, fd, sid, io.sends);
    }
  }

  lemma EmptyTail(received: seq<byte>, sent: seq<byte>, buffer: seq<byte>, off: nat)
    requires off <= |buffer| && received == sent + buffer[off..] && buffer == []
    ensures received == sent
  {
  }

  lemma EmptyBuffersAreForwarded(events: seq<Event>, sid: Sid)
    ensures var w := Run(START, events); var f := Carriage(Singles(events), sid);
            sid in w.heap ==> (w.heap[sid].c2t == [] ==> f.upOut == f.upIn) && (w.heap[sid].t2c == [] ==> f.downOut == f.downIn)
  {
    hide Run, Singles, Carriage;
    RelayForwards(events, sid);
    var w, f := Run(START, events), Carriage(Singles(events), sid);
    if sid in w.heap {
      var s := w.heap[sid];
      if s.c2t == [] { EmptyTail(f.upIn, f.upOut, s.c2t, s.c2tOff); }
      if s.t2c == [] { EmptyTail(f.downIn, f.downOut, s.t2c, s.t2cOff); }
    }
  }

  /** When a peer's stream ends, everything it sent has been taken by the kernel towards the other side. */
  lemma EndOfStreamLosesNothing(events: seq<Event>, fd: Fd, io: Io, sid: Sid)
    ensures var w := Run(START, events); var f := Carriage(Singles(events), sid);
            sid in w.heap && w.heap[sid].relayStarted && io.recv == Received([]) ==>
              var s := w.heap[sid]; var r := Step(w, Ready(fd, true, false, io, io));
              && (s.clientFd == Some(fd) && s.c2t == [] ==> sid !in r.heap && f.upOut == f.upIn)
              && (s.targetFd == Some(fd) && s.t2c == [] ==> sid !in r.heap && f.downOut == f.downIn)
  {
    hide Run, Step, Singles, Carriage, Inv, Awaited, CutOff;
    SessionsEndForAReason(events, Ready(fd, true, false, io, io), sid);
    EmptyBuffersAreForwarded(events, sid);
    Reachable(events);
    var w := Run(START, events);
    if sid in w.heap { Arms(w, sid, fd); }
  }
}
