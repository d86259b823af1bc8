/** Bytes of a negotiation may arrive in pieces between anything else that happens: other connections, other sessions'
    descriptors, lookups and their notifications. */
module Interleaving {
  import opened Basics
  import opened Socks5
  import opened Proxy
  import opened Invariant
  import opened Local
  import opened RelaySteps
  import opened AnswerSteps
  import opened Isolation
  import opened Handlers
  import opened Events
  import opened Progress
  import opened Fragmentation
  import opened Independence

  /** The event concerns no descriptor of session `x`. */
  ghost predicate Foreign(w: World, e: Event, x: Sid) {
    e.Ready? && e.fd in w.table ==> w.table[e.fd].sid != x
  }

  // ---------------------------------------------------------------- one event of somebody else

  lemma BothFine(w: World, x: Sid, b: seq<byte>, y: Sid)
    requires Inv(w) && Holds(w, x, b) && x != y && y in w.heap
    ensures Both(w, x, b, y)
  {
    hide Inv, Holds, Good, InvExcept, SessionOk, Settled, HistOk;
    InvAside(w, x, b);
    Facts(w, y);
    FieldsAside(w, x, b, y);
    Facts(H(w, x, b), y);
    assert Good(ViewOf(w, y)) by { SettledIsGood(w, y); }
  }

  lemma ReadableAside(w: World, x: Sid, b: seq<byte>, fd: Fd, io: Io)
    requires Inv(w) && Holds(w, x, b) && fd in w.table && w.table[fd].sid != x && w.table[fd].interest.read
    ensures var item := w.table[fd];
            Readable(H(w, x, b), fd, item.kind, item.sid, io) == H(Readable(w, fd, item.kind, item.sid, io), x, b)
  {
    hide Inv, Holds, Both, InvExcept, Good, ClientRead, TargetRead, H;
    var item := w.table[fd];
    Lookup1(w, fd);
    BothFine(w, x, b, item.sid);
    if item.kind == ClientItem { ClientReadAside(w, x, b, item.sid, fd, io); } else { TargetReadAside(w, x, b, item.sid, fd, io); }
  }

  lemma WritableAside(w: World, x: Sid, b: seq<byte>, fd: Fd, io: Io)
    requires Inv(w) && Holds(w, x, b) && fd in w.table && w.table[fd].sid != x && w.table[fd].interest.write
    ensures var item := w.table[fd];
            Writable(H(w, x, b), fd, item.kind, item.sid, io) == H(Writable(w, fd, item.kind, item.sid, io), x, b)
  {
    hide Inv, Holds, Both, InvExcept, Good, ClientWrite, TargetWrite, H;
    var item := w.table[fd];
    Lookup1(w, fd);
    BothFine(w, x, b, item.sid);
    if item.kind == ClientItem { ClientWriteAside(w, x, b, item.sid, fd, io.sends); }
    else { TargetWriteAside(w, x, b, item.sid, fd, io); }
  }

  lemma HoldsOn(w: World, r: World, x: Sid, b: seq<byte>)
    requires Holds(w, x, b) && SameAt(w, r, x)
    ensures Holds(r, x, b)
  {
  }

  lemma DispatchAside(w: World, x: Sid, b: seq<byte>, fd: Fd, readable: bool, writable: bool, onRead: Io, onWrite: Io)
    requires Inv(w) && Holds(w, x, b) && (fd in w.table ==> w.table[fd].sid != x)
    ensures Dispatch(H(w, x, b), fd, readable, writable, onRead, onWrite)
            == H(Dispatch(w, fd, readable, writable, onRead, onWrite), x, b)
  {
    hide Inv, Holds, Readable, Writable, H, SameAt, Work;
    FieldsAside(w, x, b, x + 1);
    if fd in w.table {
      var item := w.table[fd];
      var w1 := if readable && item.interest.read then Readable(w, fd, item.kind, item.sid, onRead) else w;
      if readable && item.interest.read {
        ReadableAside(w, x, b, fd, onRead);
        ReadableKeeps(w, fd, onRead);
        HoldsOn(w, w1, x, b);
      }
      FieldsAside(w1, x, b, x + 1);
      if writable && fd in w1.table && w1.table[fd].interest.write {
        if readable && item.interest.read { SameOwner(w, w1, fd); }
        WritableAside(w1, x, b, fd, onWrite);
      }
    }
  }

  lemma ThreadAside(w: World, x: Sid, b: seq<byte>, j: Jid, answer: Answer)
    requires x in w.heap
    ensures ThreadStep(H(w, x, b), j, answer) == H(ThreadStep(w, j, answer), x, b)
  {
    hide LookupReturns, Publishing, FreeJob, FreeList, H;
    FieldsAside(w, x, b, x + 1);
    if j in w.threads {
      match w.threads[j] {
        case Lookup => LookupReturnsAside(w, x, b, j, answer);
        case Publish(status, result) => PublishingAside(w, x, b, j, status, result);
        case Notify(fd) => QueueAside(w, x, b, [fd] + w.queue, w.threads - {j});
        case Discard(result) =>
          var a := if result then FreeList(w, j) else w;
          FreeingAside(w, x, b, j);
          assert a.threads == w.threads && x in a.heap by { FreeingKeeps(w, j); }
          FreeingAside(a, x, b, j);
          FreeingKeeps(a, j);
          QueueAside(FreeJob(a, j), x, b, FreeJob(a, j).queue, w.threads - {j});
          FieldsAside(FreeJob(a, j), x, b, x + 1);
      }
    }
  }

  lemma LookupReturnsAside(w: World, x: Sid, b: seq<byte>, j: Jid, answer: Answer)
    requires x in w.heap
    ensures LookupReturns(H(w, x, b), j, answer) == H(LookupReturns(w, j, answer), x, b)
  {
    if j !in w.jobs || j >= |w.origins| {} else {}
  }

  lemma PublishingAside(w: World, x: Sid, b: seq<byte>, j: Jid, status: int, result: bool)
    requires x in w.heap
    ensures Publishing(H(w, x, b), j, status, result) == H(Publishing(w, j, status, result), x, b)
  {
    if j !in w.jobs {} else {}
  }

  lemma QueueAside(w: World, x: Sid, b: seq<byte>, queue: seq<Fd>, threads: map<Jid, Thread>)
    requires x in w.heap
    ensures H(w, x, b).(queue := queue, threads := threads) == H(w.(queue := queue, threads := threads), x, b)
  {
  }

  lemma FreeingAside(w: World, x: Sid, b: seq<byte>, j: Jid)
    requires x in w.heap
    ensures FreeJob(H(w, x, b), j) == H(FreeJob(w, j), x, b) && FreeList(H(w, x, b), j) == H(FreeList(w, j), x, b)
  {
    if j in w.jobs {} else {}
    if j in w.lists {} else {}
  }

  lemma FreeingKeeps(w: World, j: Jid)
    ensures FreeJob(w, j).threads == w.threads && FreeJob(w, j).heap == w.heap
    ensures FreeList(w, j).threads == w.threads && FreeList(w, j).heap == w.heap
  {
    if j in w.jobs {} else {}
    if j in w.lists {} else {}
  }

  lemma AcceptAside(w: World, x: Sid, b: seq<byte>, want: Fd)
    requires x in w.heap && x < |w.hist|
    ensures AcceptClient(H(w, x, b), want) == H(AcceptClient(w, want), x, b)
  {
    hide Fresh;
    var fd := FreshFd(w.open, want);
    if Registrable(w.(open := w.open + {fd}), fd) {
      assert AcceptClient(H(w, x, b), want).heap == H(AcceptClient(w, want), x, b).heap;
    } else {
      assert fd in w.open + {fd};
    }
  }

  /** Nobody who is due for a notification is negotiating. */
  lemma DueIsElsewhere(w: World, x: Sid, b: seq<byte>, fd: Fd)
    requires Inv(w) && Holds(w, x, b) && Due(w, fd)
    ensures w.table[fd].sid != x
  {
    hide Inv, Decides;
    ResolvingIffWaiting(w, w.table[fd].sid);
  }

  lemma DrainAside(w: World, x: Sid, b: seq<byte>, io: Io)
    requires Inv(w) && Awaited(w) && Holds(w, x, b)
    ensures DrainOne(H(w, x, b), io) == H(DrainOne(w, io), x, b)
  {
    hide Inv, Holds, TakeAnswer, DrainOne, H, ResolvingView;
    FieldsAside(w, x, b, x + 1);
    if w.queue != [] {
      var fd := w.queue[0];
      assert Due(w, fd);
      DueIsElsewhere(w, x, b, fd);
      var y := w.table[fd].sid;
      var j := w.heap[y].job.value;
      FieldsAside(w, x, b, y);
      assert Due(H(w, x, b), fd);
      InvAside(w, x, b);
      DrainIs(w, io);
      DrainIs(H(w, x, b), io);
      PoppedAside(w, x, b);
      AnswerIsReady(w, y, j);
      TakeAnswerAside(Popped(w), x, b, y, j, io);
    } else {
      NothingDrained(w, io);
      NothingDrained(H(w, x, b), io);
    }
  }

  /** Undecided bytes of a listening session are invisible to every event of others. */
  lemma StepAside(w: World, e: Event, x: Sid, b: seq<byte>)
    requires Inv(w) && Awaited(w) && Holds(w, x, b) && Foreign(w, e, x)
    ensures Step(H(w, x, b), e) == H(Step(w, e), x, b)
  {
    hide Inv, Awaited, AcceptClient, Dispatch, DrainOne, ThreadStep, H, Settled, HistOk, InvExcept, Decides;
    Facts(w, x);
    match e {
      case Accept(want) => AcceptAside(w, x, b, want);
      case Ready(fd, readable, writable, onRead, onWrite) => DispatchAside(w, x, b, fd, readable, writable, onRead, onWrite);
      case Drain(io) => DrainAside(w, x, b, io);
      case ThreadRuns(j, answer) => ThreadAside(w, x, b, j, answer);
    }
  }

  /** And such an event leaves the session as it is. */
  lemma ForeignLeaves(w: World, e: Event, x: Sid, b: seq<byte>)
    requires Inv(w) && Awaited(w) && Holds(w, x, b) && Foreign(w, e, x)
    ensures SameAt(w, Step(w, e), x)
  {
    hide Inv, Awaited, AcceptClient, Dispatch, DrainOne, ThreadStep, Settled, HistOk, InvExcept, Work, Decides;
    Facts(w, x);
    match e {
      case Ready(fd, readable, writable, onRead, onWrite) =>
        if fd in w.table {
          DispatchKeeps(w, fd, readable, writable, onRead, onWrite);
        } else {
          NothingDispatched(w, fd, readable, writable, onRead, onWrite);
        }
      case Drain(io) => DrainLeaves(w, x, b, io);
      case _ => OtherEventsLeaveIt(w, e, x);
    }
  }

  lemma DrainLeaves(w: World, x: Sid, b: seq<byte>, io: Io)
    requires Inv(w) && Awaited(w) && Holds(w, x, b)
    ensures SameAt(w, DrainOne(w, io), x)
  {
    hide Inv, Holds, TakeAnswer, DrainOne;
    if w.queue != [] {
      var fd := w.queue[0];
      assert Due(w, fd);
      DueIsElsewhere(w, x, b, fd);
      DrainIs(w, io);
      var y := w.table[fd].sid;
      TakeAnswerIsolated(w.(queue := w.queue[1..]), fd, y, w.heap[y].job.value, io, x);
    } else {
      NothingDrained(w, io);
    }
  }

  // ---------------------------------------------------------------- pieces between other events

  /** What happens: a piece arrives for `fd`, or anything else. */
  datatype Happening = Piece(bytes: seq<byte>, io: Io) | Other(e: Event)

  ghost function AsEvent(fd: Fd, h: Happening): Event {
    match h
    case Piece(bytes, io) => Reading(fd, bytes, io)
    case Other(e) => e
  }

  ghost function Played(fd: Fd, script: seq<Happening>): seq<Event> {
    if script == [] then [] else Played(fd, script[..|script| - 1]) + [AsEvent(fd, script[|script| - 1])]
  }

  /** The other events alone. */
  ghost function Others(script: seq<Happening>): seq<Event> {
    if script == [] then []
    else
      var last := script[|script| - 1];
      Others(script[..|script| - 1]) + if last.Other? then [last.e] else []
  }

  /** The bytes of the pieces, put together. */
  ghost function Bytes(script: seq<Happening>): seq<byte> {
    if script == [] then []
    else
      var last := script[|script| - 1];
      Bytes(script[..|script| - 1]) + if last.Piece? then last.bytes else []
  }

  lemma {:induction false} RunOn(w: World, a: seq<Event>, b: seq<Event>)
    ensures Run(w, a + b) == Run(Run(w, a), b)
    decreases |b|
  {
    hide Step;
    if b == [] {
      assert a + b == a;
    } else {
      var n := |a + b| - 1;
      assert (a + b)[..n] == a + b[..|b| - 1] && (a + b)[n] == b[|b| - 1];
      RunOn(w, a, b[..|b| - 1]);
    }
  }

  lemma RunOneMore(w: World, a: seq<Event>, e: Event)
    ensures Run(w, a + [e]) == Step(Run(w, a), e)
  {
    hide Step;
    assert (a + [e])[..|a|] == a;
  }

  /** Nothing among the other events concerns session `x`. */
  ghost predicate AllForeign(events: seq<Event>, script: seq<Happening>, x: Sid) {
    forall k | 0 <= k < |script| && script[k].Other? ::
      Foreign(Run(START, events + Others(script[..k])), script[k].e, x)
  }

  /** The state a session is in while it waits for the rest of a message. */
  ghost predicate Waits(w: World, fd: Fd, sid: Sid) {
    && Registered(w, fd, ClientItem, sid) && sid in w.heap && w.heap[sid].clientFd == Some(fd)
    && Negotiating(w.heap[sid].stage) && w.heap[sid].writeBuf == [] && w.table[fd].interest.read && Listening(w, fd, sid)
  }

  lemma WaitsStill(w: World, v: World, fd: Fd, sid: Sid)
    requires Inv(v) && Waits(w, fd, sid) && SameAt(w, v, sid)
    ensures Waits(v, fd, sid)
  {
    Facts(v, sid);
    hide Linkage, Resolution, Accounts, HistOk, Story, Listening, SessionOk, DecideGreeting, DecideAuth, DecideRequest;
    NegotiatorsListen(v, fd);
  }

  lemma PieceWaits(v: World, fd: Fd, sid: Sid, a: seq<byte>, bytes: seq<byte>, io: Io)
    requires Waits(v, fd, sid) && bytes != [] && !Decides(v.heap[sid].stage, a)
    ensures Step(H(v, sid, a), Reading(fd, bytes, io)) == Settle(v, fd, sid, Take(a + bytes, BUFFER_SIZE), io)
    ensures !Decides(v.heap[sid].stage, a + bytes) ==> Step(H(v, sid, a), Reading(fd, bytes, io)) == H(v, sid, a + bytes)
  {
    hide Listening, Decides, Step, Settle, Reading;
    WaitingOn(v, fd, sid, a);
    OneRead(H(v, sid, a), fd, sid, bytes, io);
    SettleAgain(v, fd, sid, a, Take(a + bytes, BUFFER_SIZE), io);
    if !Decides(v.heap[sid].stage, a + bytes) {
      UndecidedWhole(v.heap[sid].stage, a + bytes);
      UndecidedWaits(v, fd, sid, a + bytes, io);
    }
  }

  /** As long as nothing is decided, the world is that of the other events, with the pieces in the read buffer. */
  lemma {:induction false} PlayedIs(events: seq<Event>, fd: Fd, sid: Sid, script: seq<Happening>)
    requires Waits(Run(START, events), fd, sid) && AllForeign(events, script, sid)
    requires forall k | 0 <= k < |script| && script[k].Piece? :: script[k].bytes != []
    requires !Decides(Run(START, events).heap[sid].stage, Run(START, events).heap[sid].readBuf + Bytes(script))
    ensures var w, v := Run(START, events), Run(START, events + Others(script));
            && SameAt(w, v, sid) && Waits(v, fd, sid)
            && Run(w, Played(fd, script)) == H(v, sid, w.heap[sid].readBuf + Bytes(script))
    decreases |script|
  {
    hide Run, Inv, Awaited, Step, Decides, Listening, H, Reading;
    var w := Run(START, events);
    var s := w.heap[sid];
    if script == [] {
      assert events + [] == events && s.readBuf + [] == s.readBuf;
      assert Run(w, []) == w by { RunNothing(w); }
      Unchanged(w, sid);
    } else {
      var n := |script| - 1;
      var init, last := script[..n], script[n];
      var a, b := s.readBuf + Bytes(init), s.readBuf + Bytes(script);
      assert a <= b;
      if Decides(s.stage, a) { DecidesIsStable(s.stage, a, b); }
      assert forall k | 0 <= k < n :: init[..k] == script[..k];
      PlayedIs(events, fd, sid, init);
      var v := Run(START, events + Others(init));
      RunOneMore(w, Played(fd, init), AsEvent(fd, last));
      Reachable(events + Others(init));
      match last {
        case Piece(bytes, io) =>
          assert b == a + bytes;
          PieceWaits(v, fd, sid, a, bytes, io);
          assert Others(script) == Others(init);
        case Other(e) =>
          assert b == a && Foreign(Run(START, events + Others(script[..n])), script[n].e, sid);
          assert events + Others(script) == (events + Others(init)) + [e];
          RunOneMore(START, events + Others(init), e);
          StepAside(v, e, sid, a);
          ForeignLeaves(v, e, sid, a);
          Reachable(events + Others(script));
          WaitsStill(w, Step(v, e), fd, sid);
      }
    }
  }

  lemma RunNothing(w: World)
    ensures Run(w, []) == w
  {
  }

  lemma Unchanged(w: World, sid: Sid)
    requires sid in w.heap
    ensures H(w, sid, w.heap[sid].readBuf) == w && SameAt(w, w, sid)
  {
    assert w.heap[sid := w.heap[sid]] == w.heap;
  }

  /** Fragmentation independence between other events: a message that arrives in pieces, with other connections, other
      sessions' events and lookups in between, is decided as if all of it had arrived when its last piece did. The worlds
      are the same, not only this session's part of them. */
  lemma FragmentsMayInterleave(events: seq<Event>, fd: Fd, script: seq<Happening>, last: seq<byte>, io: Io)
    ensures var w := Run(START, events);
            fd in w.table && w.table[fd].kind == ClientItem && w.table[fd].interest.read
            && w.table[fd].sid in w.heap && Negotiating(w.heap[w.table[fd].sid].stage) && last != []
            && (forall k | 0 <= k < |script| && script[k].Piece? :: script[k].bytes != [])
            && AllForeign(events, script, w.table[fd].sid)
            && !Decides(w.heap[w.table[fd].sid].stage, w.heap[w.table[fd].sid].readBuf + Bytes(script)) ==>
              Run(w, Played(fd, script) + [Reading(fd, last, io)])
              == Run(w, Others(script) + [Reading(fd, Bytes(script) + last, io)])
  {
    hide Run, Inv, Awaited, Step, Settle, Decides, Listening, H, Reading, Played, Others, Bytes, AllForeign;
    var w := Run(START, events);
    Reachable(events);
    if fd in w.table && w.table[fd].kind == ClientItem && w.table[fd].interest.read
       && w.table[fd].sid in w.heap && Negotiating(w.heap[w.table[fd].sid].stage) && last != []
       && (forall k | 0 <= k < |script| && script[k].Piece? :: script[k].bytes != [])
       && AllForeign(events, script, w.table[fd].sid)
       && !Decides(w.heap[w.table[fd].sid].stage, w.heap[w.table[fd].sid].readBuf + Bytes(script)) {
      var sid := w.table[fd].sid;
      WaitsNow(w, fd);
      PlayedIs(events, fd, sid, script);
      RunOn(START, events, Others(script));
      var v := Run(w, Others(script));
      var a := w.heap[sid].readBuf + Bytes(script);
      RunOneMore(w, Played(fd, script), Reading(fd, last, io));
      RunOneMore(w, Others(script), Reading(fd, Bytes(script) + last, io));
      PieceWaits(v, fd, sid, a, last, io);
      OneRead(v, fd, sid, Bytes(script) + last, io);
      assert a + last == v.heap[sid].readBuf + (Bytes(script) + last);
    }
  }

  lemma WaitsNow(w: World, fd: Fd)
    requires Inv(w) && fd in w.table && w.table[fd].kind == ClientItem && w.table[fd].interest.read
    requires w.table[fd].sid in w.heap && Negotiating(w.heap[w.table[fd].sid].stage)
    ensures Waits(w, fd, w.table[fd].sid)
  {
    Lookup1(w, fd);
    NegotiatorsListen(w, fd);
    ReadArmed(ViewOf(w, w.table[fd].sid));
    hide Inv, InvExcept, Good, Listening;
  }
}
