/** A handler changes no session but its own, and no lookup but one it starts. */
module Isolation {
  import opened Basics
  import opened Socks5
  import opened Proxy

  /** Session `x` is the same in both worlds: absent, or with the same record. */
  ghost predicate SameAt(w: World, w': World, x: Sid) {
    (x in w'.heap <==> x in w.heap) && (x in w.heap ==> w'.heap[x] == w.heap[x])
  }

  ghost predicate Isolated(w: World, w': World, sid: Sid) {
    forall x | x != sid :: SameAt(w, w', x)
  }

  /** Jobs, threads and notifications are the same in both worlds. */
  ghost predicate SameWork(w: World, w': World) {
    w'.jobs == w.jobs && w'.threads == w.threads && w'.queue == w.queue && w'.origins == w.origins
  }

  /** Only sessions other than `x` changed, and no lookup. */
  ghost predicate Apart(w: World, w': World, x: Sid) {
    SameAt(w, w', x) && SameWork(w, w')
  }

  /** The work under way is the same, but for a lookup that session `sid` started. */
  ghost predicate Work(w: World, w': World, sid: Sid) {
    var j := |w.origins|;
    || SameWork(w, w')
    || (&& w'.queue == w.queue && w.origins <= w'.origins && |w'.origins| == j + 1 && w'.origins[j].answer.None?
        && w'.jobs.Keys == w.jobs.Keys + {j} && w'.threads.Keys == w.threads.Keys + {j}
        && (forall i | i in w.jobs && i != j :: w'.jobs[i] == w.jobs[i])
        && (forall i | i in w.threads && i != j :: w'.threads[i] == w.threads[i])
        && sid in w'.heap && w'.heap[sid].job == Some(j))
  }

  lemma ApartChain(w: World, w1: World, w2: World, x: Sid)
    requires Apart(w, w1, x) && Apart(w1, w2, x)
    ensures Apart(w, w2, x)
  {
  }

  lemma PutApart(w: World, sid: Sid, s: Session, x: Sid)
    requires x != sid
    ensures Apart(w, Put(w, sid, s), x)
  {
  }

  lemma RememberApart(w: World, sid: Sid, h: Hist, x: Sid)
    ensures Apart(w, Remember(w, sid, h), x) && Remember(w, sid, h).heap == w.heap
  {
    if sid < |w.hist| {} else {}
  }

  lemma SetInterestApart(w: World, fd: Fd, interest: Interest, x: Sid)
    ensures Apart(w, SetInterest(w, fd, interest), x) && SetInterest(w, fd, interest).heap == w.heap
  {
    if fd in w.table {} else {}
  }

  lemma StoreApart(w: World, sid: Sid, h: Hist, s: Session, x: Sid)
    requires x != sid
    ensures Apart(w, Put(Remember(w, sid, h), sid, s), x)
  {
    hide Put, Remember, Apart;
    RememberApart(w, sid, h, x);
    PutApart(Remember(w, sid, h), sid, s, x);
    ApartChain(w, Remember(w, sid, h), Put(Remember(w, sid, h), sid, s), x);
  }

  lemma LogAccessIsolated(w: World, sid: Sid, success: bool, x: Sid)
    requires x != sid
    ensures Apart(w, LogAccess(w, sid, success), x)
  {
    if sid in w.heap {
      var s := w.heap[sid];
      if !s.accessLogged && HasDestination(s) {
        hide Put, Remember;
        var h := Past(w, sid);
        StoreApart(w, sid, h.(records := h.records + [Record(s.username, s.destination, s.port, success)]),
                   s.(accessLogged := true), x);
      }
    }
  }

  lemma RefuseIsolated(w: World, sid: Sid, code: byte, logged: bool, x: Sid)
    requires x != sid
    ensures Apart(w, Refuse(w, sid, code, logged), x)
  {
    hide LogAccess, Remember, Put, RequestResponse;
    if sid in w.heap {
      var h := Past(w, sid);
      RememberApart(w, sid, h.(replies := h.replies + [code]), x);
      var w1 := Remember(w, sid, h.(replies := h.replies + [code])).(metrics := w.metrics.(failed := w.metrics.failed + 1));
      assert Apart(w, w1, x);
      LogAccessIsolated(w1, sid, false, x);
      var w2 := if logged then LogAccess(w1, sid, false) else w1;
      ApartChain(w, w1, w2, x);
      if sid in w2.heap {
        var s := w2.heap[sid].(writeBuf := RequestResponse(code), writeOff := 0, stage := Closing);
        PutApart(w2, sid, s, x);
        ApartChain(w, w2, Put(w2, sid, s), x);
      }
    }
  }

  lemma AttemptFailedIsolated(w: World, sid: Sid, address: Address, errno: int, x: Sid)
    requires x != sid
    ensures Apart(w, AttemptFailed(w, sid, address, errno).w, x)
  {
    hide Put, Remember;
    if sid in w.heap {
      var h := Past(w, sid);
      StoreApart(w, sid, h.(tried := h.tried + [Try(address, Failed(errno))]), w.heap[sid].(lastError := errno), x);
    }
  }

  /** A failed attempt leaves no socket behind. */
  ghost function Abandoned(w: World, sid: Sid): World
    requires sid in w.heap
  {
    Put(w, sid, w.heap[sid].(targetFd := None))
  }

  /** The socket is registered and its attempt under way. */
  ghost function Launched(w: World, sid: Sid, fd: Fd, address: Address): World
    requires sid in w.heap
  {
    var s, h := w.heap[sid], Past(w, sid);
    var w1 := Remember(w, sid, h.(tried := h.tried + [Try(address, Pending)]));
    Put(w1.(open := w.open + {fd}, table := w.table[fd := Item(TargetItem, WRITE, sid)]),
        sid, s.(targetFd := Some(fd), stage := Connecting))
  }

  lemma NothingOpened(w: World, fd: Fd)
    requires fd !in w.open
    ensures CloseFd(w.(open := w.open + {fd}), fd) == w
  {
    assert w.open + {fd} - {fd} == w.open;
  }

  lemma AbandonedIs(w: World, sid: Sid, fd: Fd)
    requires sid in w.heap && fd !in w.open
    ensures var s := w.heap[sid]; var w1 := Put(w.(open := w.open + {fd}), sid, s.(targetFd := Some(fd)));
            Put(CloseFd(w1, fd), sid, s.(targetFd := None)) == Abandoned(w, sid)
  {
    var s := w.heap[sid];
    assert w.heap[sid := s.(targetFd := Some(fd))][sid := s.(targetFd := None)] == w.heap[sid := s.(targetFd := None)];
    assert w.open + {fd} - {fd} == w.open;
  }

  lemma LaunchedIs(w: World, sid: Sid, fd: Fd, address: Address)
    requires sid in w.heap && Registrable(w, fd)
    ensures var s := w.heap[sid]; var w1 := Put(w.(open := w.open + {fd}), sid, s.(targetFd := Some(fd)));
            var h := Past(w1, sid);
            var w2 := Remember(w1, sid, h.(tried := h.tried + [Try(address, Pending)]));
            Put(Register(w2, fd, Item(TargetItem, WRITE, sid)), sid, s.(targetFd := Some(fd), stage := Connecting))
            == Launched(w, sid, fd, address)
  {
    var s := w.heap[sid];
    var last := s.(targetFd := Some(fd), stage := Connecting);
    assert w.heap[sid := s.(targetFd := Some(fd))][sid := last] == w.heap[sid := last];
    if sid < |w.hist| {} else {}
  }

  /** What one call of start_target_connection amounts to. */
  lemma ConnectionStarts(w: World, sid: Sid, address: Address, attempt: Attempt)
    requires sid in w.heap
    ensures StartConnection(w, sid, address, attempt)
            == match attempt
               case NoSocket(errno) => AttemptFailed(w, sid, address, errno)
               case NotNonBlocking(want, errno) => AttemptFailed(w, sid, address, errno)
               case ConnectFailed(want, errno) => AttemptFailed(Abandoned(w, sid), sid, address, errno)
               case Underway(want, errno) =>
                 var fd := FreshFd(w.open, want);
                 if !Registrable(w, fd) then AttemptFailed(Abandoned(w, sid), sid, address, errno)
                 else Started(Launched(w, sid, fd, address), true)
  {
    hide AttemptFailed, CloseFd, Abandoned, Launched, Remember;
    if !attempt.NoSocket? {
      var fd := FreshFd(w.open, attempt.fd);
      NothingOpened(w, fd);
      AbandonedIs(w, sid, fd);
      if Registrable(w, fd) { LaunchedIs(w, sid, fd, address); }
    }
  }

  lemma LaunchedApart(w: World, sid: Sid, fd: Fd, address: Address, x: Sid)
    requires x != sid && sid in w.heap
    ensures Apart(w, Launched(w, sid, fd, address), x)
  {
    if sid < |w.hist| {} else {}
  }

  lemma StartConnectionIsolated(w: World, sid: Sid, address: Address, attempt: Attempt, x: Sid)
    requires x != sid
    ensures Apart(w, StartConnection(w, sid, address, attempt).w, x)
  {
    if sid in w.heap {
      hide StartConnection, AttemptFailed, Launched, Put;
      ConnectionStarts(w, sid, address, attempt);
      AttemptFailedIsolated(w, sid, address, attempt.errno, x);
      PutApart(w, sid, w.heap[sid].(targetFd := None), x);
      AttemptFailedIsolated(Abandoned(w, sid), sid, address, attempt.errno, x);
      if attempt.Underway? { LaunchedApart(w, sid, FreshFd(w.open, attempt.fd), address, x); }
    }
  }

  lemma {:induction false} StartNextIsolated(w: World, sid: Sid, attempts: seq<Attempt>, x: Sid)
    requires x != sid
    ensures Apart(w, StartNext(w, sid, attempts).w, x)
    decreases if sid in w.heap then |w.heap[sid].cursor| else 0
  {
    if sid in w.heap && w.heap[sid].cursor != [] && w.heap[sid].addresses.Some? && w.heap[sid].addresses.value in w.lists {
      hide StartConnection;
      var s := w.heap[sid];
      var w1 := Put(w, sid, s.(cursor := s.cursor[1..]));
      if !Usable(s.cursor[0]) {
        StartNextIsolated(w1, sid, attempts, x);
      } else {
        StartConnectionIsolated(w1, sid, s.cursor[0], FirstAttempt(attempts), x);
        var r := StartConnection(w1, sid, s.cursor[0], FirstAttempt(attempts));
        if !r.ok { StartNextIsolated(r.w, sid, if attempts == [] then [] else attempts[1..], x); }
      }
    }
  }

  lemma AfterStartIsolated(r: Started, fd: Fd, sid: Sid, x: Sid)
    requires x != sid
    ensures Apart(r.w, AfterStart(r, fd, sid), x)
  {
    hide Refuse, SetInterest;
    if sid in r.w.heap {
      var code := ReplyForErrno(r.w.heap[sid].lastError);
      RefuseIsolated(r.w, sid, code, true, x);
      SetInterestApart(r.w, fd, NOOP, x);
      SetInterestApart(Refuse(r.w, sid, code, true), fd, WRITE, x);
    }
  }

  lemma TargetFailedIsolated(r: Started, sid: Sid, x: Sid)
    requires x != sid
    ensures Apart(r.w, TargetFailed(r, sid), x)
  {
    hide Refuse, SetInterest;
    if sid in r.w.heap {
      var s := r.w.heap[sid];
      var code := ReplyForErrno(s.lastError);
      RefuseIsolated(r.w, sid, code, true, x);
      if s.clientFd.Some? { SetInterestApart(Refuse(r.w, sid, code, true), s.clientFd.value, WRITE, x); }
    }
  }

  /** Starting a lookup is the one kind of work a handler adds. */
  lemma LookupIsWork(w: World, r: World, sid: Sid, origin: Origin, job: Job)
    requires origin.answer.None? && r.origins == w.origins + [origin] && r.queue == w.queue
    requires r.jobs == w.jobs[|w.origins| := job] && r.threads == w.threads[|w.origins| := Lookup]
    requires sid in r.heap && r.heap[sid].job == Some(|w.origins|)
    ensures Work(w, r, sid)
  {
  }

  lemma WorkGoesOn(w: World, w1: World, r: World, sid: Sid)
    requires Work(w, w1, sid) && SameWork(w1, r) && r.heap == w1.heap
    ensures Work(w, r, sid)
  {
  }

  lemma BeginLookupIsolated(w: World, fd: Fd, sid: Sid, request: ConnectRequest, io: Io, x: Sid)
    requires x != sid
    ensures SameAt(w, BeginLookup(w, fd, sid, request, io), x) && Work(w, BeginLookup(w, fd, sid, request, io), sid)
  {
    hide Refuse, SetInterest, Remember;
    if sid in w.heap {
      if io.resolverStarts {
        var s := w.heap[sid];
        var j := |w.origins|;
        var w1 := w.(origins := w.origins + [Origin(sid, CString(request.address), request.port, None)],
                     jobs := w.jobs[j := Job(if s.clientFd.Some? then s.clientFd.value else 0, Some(sid), false, EAI_AGAIN, false)],
                     threads := w.threads[j := Lookup]);
        var h := Past(w1, sid).(lookup := Some(j));
        RememberApart(w1, sid, h, x);
        var w2 := Put(Remember(w1, sid, h), sid, s.(job := Some(j), stage := Resolving));
        SetInterestApart(w2, fd, NOOP, x);
        LookupIsWork(w, w2, sid, w1.origins[j], w1.jobs[j]);
        hide Work;
        assert SetInterest(w2, fd, NOOP) == BeginLookup(w, fd, sid, request, io);
        WorkGoesOn(w, w2, SetInterest(w2, fd, NOOP), sid);
      } else {
        RefuseIsolated(w, sid, REPLY_GENERAL_FAILURE, true, x);
        SetInterestApart(Refuse(w, sid, REPLY_GENERAL_FAILURE, true), fd, WRITE, x);
      }
    }
  }

  lemma TargetConnectedIsolated(w: World, sid: Sid, x: Sid)
    requires x != sid
    ensures Apart(w, TargetConnected(w, sid), x)
  {
    hide LogAccess, MarkLastTry, Remember, Put, SetInterest, RequestResponse;
    if sid in w.heap {
      var w0 := MarkLastTry(w, sid, Connected);
      MarkLastTryIsolated(w, sid, Connected, x);
      var h := Past(w0, sid);
      var h' := h.(replies := h.replies + [REPLY_SUCCESS], succeeded := true);
      RememberApart(w0, sid, h', x);
      var w1 := Remember(w0, sid, h').(metrics := w.metrics.(successful := w.metrics.successful + 1));
      assert Apart(w, w1, x);
      LogAccessIsolated(w1, sid, true, x);
      var w2 := LogAccess(w1, sid, true);
      ApartChain(w, w1, w2, x);
      if sid in w2.heap {
        var s := w2.heap[sid];
        var s' := s.(writeBuf := RequestResponse(REPLY_SUCCESS), writeOff := 0, stage := Relay);
        PutApart(w2, sid, s', x);
        ApartChain(w, w2, Put(w2, sid, s'), x);
        if s.clientFd.Some? { SetInterestApart(Put(w2, sid, s'), s.clientFd.value, WRITE, x); }
      }
    }
  }

  lemma MarkLastTryIsolated(w: World, sid: Sid, outcome: Outcome, x: Sid)
    ensures Apart(w, MarkLastTry(w, sid, outcome), x)
  {
    hide Remember;
    var h := Past(w, sid);
    if h.tried != [] {
      var last := |h.tried| - 1;
      RememberApart(w, sid, h.(tried := h.tried[last := Try(h.tried[last].address, outcome)]), x);
    }
  }

  lemma TakeAnswerIsolated(w: World, fd: Fd, sid: Sid, j: Jid, io: Io, x: Sid)
    requires x != sid
    ensures SameAt(w, TakeAnswer(w, fd, sid, j, io), x)
    ensures sid in w.heap && j in w.jobs ==> SameWork(w.(jobs := w.jobs - {j}), TakeAnswer(w, fd, sid, j, io))
  {
    hide Refuse, StartNext, AfterStart, SetInterest, Remember;
    if sid in w.heap && j in w.jobs {
      var s := w.heap[sid];
      var w1 := Put(FreeJob(w, j), sid, s.(job := None));
      var code := ReplyForGaiError(w.jobs[j].status);
      RefuseIsolated(w1, sid, code, true, x);
      SetInterestApart(Refuse(w1, sid, code, true), fd, WRITE, x);
      if j in w1.lists {
        var h := Past(w1, sid);
        var h' := h.(resolved := Some(j), candidates := Filter(w1.lists[j]));
        RememberApart(w1, sid, h', x);
        var w2 := Put(Remember(w1, sid, h'), sid, s.(job := None, addresses := Some(j), cursor := w1.lists[j]));
        StartNextIsolated(w2, sid, io.attempts, x);
        AfterStartIsolated(StartNext(w2, sid, io.attempts), fd, sid, x);
      }
    }
  }
}
