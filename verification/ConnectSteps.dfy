/** Connecting to the target: one attempt after another until one is under way or none is left. */
module ConnectSteps {
  import opened Basics
  import opened Proxy
  import opened Invariant
  import opened Local
  import opened RelaySteps
  import opened Structure

  /** What is true of a session that has a request and no answer yet, whatever its stage. */
  ghost predicate Asking(v: View) {
    && Quiet(v.s) && NoReply(v.s) && v.s.job.None?
    && (v.target.Some? <==> v.s.targetFd.Some?)
    && Flow(v.s, v.h) && v.h.ending == Open
    && Admitted(v.h) && v.s.username == AdmittedName(v.h)
    && CandidatesKnown(v.h) && Unanswered(v.s, v.h) && HistOk(v.h)
  }

  /** All attempts so far failed, `next` are to be tried before the cursor's. */
  ghost predicate Trying(v: View, next: seq<Address>) {
    && Asking(v) && v.s.targetFd.None?
    && AllFailed(v.h.tried) && v.s.lastError == LastErrno(v.h.tried)
    && Addresses(v.h.tried) + next + Filter(v.s.cursor) == v.h.candidates
    && (v.s.cursor != [] ==> v.s.addresses.Some?)
  }

  /** The last attempt is under way. */
  ghost predicate Begun(v: View) {
    && Asking(v) && v.s.targetFd.Some? && v.target == Some(WRITE) && v.s.stage == Connecting
    && EndsWith(v.h.tried, Pending) && Ahead(v.s, v.h)
  }

  ghost function TriedFailed(v: View, address: Address, errno: int): View {
    v.(s := v.s.(lastError := errno), h := v.h.(tried := v.h.tried + [Try(address, Failed(errno))]))
  }

  ghost function TriedPending(v: View, address: Address): View {
    v.(s := v.s.(stage := Connecting), h := v.h.(tried := v.h.tried + [Try(address, Pending)]))
  }

  lemma AddressesAppend(tried: seq<Try>, t: Try)
    ensures Addresses(tried + [t]) == Addresses(tried) + [t.address]
  {
  }

  lemma FailedMoves(v: View, address: Address, errno: int)
    requires Trying(v, [address])
    ensures Moved(v, TriedFailed(v, address, errno)) && Trying(TriedFailed(v, address, errno), [])
  {
    var t := Try(address, Failed(errno));
    AddressesAppend(v.h.tried, t);
    assert Addresses(v.h.tried) + [address] + Filter(v.s.cursor) == Addresses(v.h.tried + [t]) + [] + Filter(v.s.cursor);
    assert AllFailed(v.h.tried + [t]);
  }

  lemma PendingMoves(v: View, address: Address, fd: Fd)
    requires Trying(v, [address])
    ensures var v1 := TriedPending(v, address);
            Moved(v, v1) && Begun(v1.(s := v1.s.(targetFd := Some(fd)), target := Some(WRITE)))
  {
    var t := Try(address, Pending);
    AddressesAppend(v.h.tried, t);
    var tried := v.h.tried + [t];
    assert tried[..|tried| - 1] == v.h.tried;
    assert tried[|tried| - 1] == t;
    assert EndsWith(tried, Pending);
    assert Addresses(v.h.tried) + [address] + Filter(v.s.cursor) == Addresses(tried) + Filter(v.s.cursor);
  }

  lemma AttemptFailedIs(w: World, sid: Sid, address: Address, errno: int)
    requires Live(w, sid)
    ensures AttemptFailed(w, sid, address, errno) == Started(Commit(w, sid, TriedFailed(ViewOf(w, sid), address, errno)), false)
  {
    var v' := TriedFailed(ViewOf(w, sid), address, errno);
    StoreIs(w, sid, v'.s, v'.h, w.metrics);
  }

  /** Opening a descriptor and closing it again leaves nothing behind. */
  lemma OpenedAndClosed(w: World, sid: Sid, fd: Fd)
    requires sid in w.heap && w.heap[sid].targetFd.None? && fd !in w.open
    ensures var s := w.heap[sid]; var o := w.(open := w.open + {fd});
            && CloseFd(o, fd) == w
            && Put(CloseFd(Put(o, sid, s.(targetFd := Some(fd))), fd), sid, s.(targetFd := None)) == w
  {
    var s := w.heap[sid];
    assert w.open + {fd} - {fd} == w.open;
    assert s.(targetFd := None) == s;
    assert w.heap[sid := s.(targetFd := Some(fd))][sid := s] == w.heap;
  }

  lemma UnderwayIs(w: World, sid: Sid, address: Address, fd: Fd)
    requires Live(w, sid) && w.heap[sid].targetFd.None? && fd !in w.open && w.open == w.table.Keys && fd < FD_LIMIT
    ensures var s := w.heap[sid]; var h := w.hist[sid];
            var w1 := Put(w.(open := w.open + {fd}), sid, s.(targetFd := Some(fd)));
            var w2 := Remember(w1, sid, h.(tried := h.tried + [Try(address, Pending)]));
            && Registrable(w1, fd) && Registrable(w2, fd) && Past(w1, sid) == h
            && Put(Register(w2, fd, Item(TargetItem, WRITE, sid)), sid, s.(targetFd := Some(fd), stage := Connecting))
               == Attached(Commit(w, sid, TriedPending(ViewOf(w, sid), address)), sid, fd)
  {
    var s := w.heap[sid];
    var v' := TriedPending(ViewOf(w, sid), address);
    StoreIs(w, sid, v'.s, v'.h, w.metrics);
    var linked := s.(targetFd := Some(fd), stage := Connecting);
    assert w.heap[sid := s.(targetFd := Some(fd))][sid := linked] == w.heap[sid := v'.s][sid := linked];
  }

  /** What an attempt does to the world. */
  lemma StartConnectionIs(w: World, sid: Sid, address: Address, attempt: Attempt)
    requires Live(w, sid) && w.heap[sid].targetFd.None? && w.open == w.table.Keys
    ensures var r := StartConnection(w, sid, address, attempt); var v := ViewOf(w, sid);
            && (r.ok <==> attempt.Underway? && FreshFd(w.open, attempt.fd) < 1024)
            && r.w == if r.ok then Attached(Commit(w, sid, TriedPending(v, address)), sid, FreshFd(w.open, attempt.fd))
                      else Commit(w, sid, TriedFailed(v, address, attempt.errno))
  {
    AttemptFailedIs(w, sid, address, attempt.errno);
    if !attempt.NoSocket? {
      var fd := FreshFd(w.open, attempt.fd);
      OpenedAndClosed(w, sid, fd);
      if attempt.Underway? && fd < FD_LIMIT {
        UnderwayIs(w, sid, address, fd);
      }
    }
  }

  /** The outcome of trying. */
  ghost predicate Attempted(w: World, sid: Sid, r: Started) {
    && InvExcept(r.w, sid) && Live(w, sid) && Live(r.w, sid)
    && r.w.heap[sid].clientFd == w.heap[sid].clientFd && r.w.heap[sid].readBuf == w.heap[sid].readBuf
    && ClientInterest(r.w, sid) == ClientInterest(w, sid)
    && (if r.ok then Begun(ViewOf(r.w, sid)) else Trying(ViewOf(r.w, sid), []))
    && r.w.hist[sid].request == w.hist[sid].request
  }

  lemma StartConnectionKeeps(w: World, sid: Sid, address: Address, attempt: Attempt)
    requires InvExcept(w, sid) && Live(w, sid) && Trying(ViewOf(w, sid), [address])
    ensures Attempted(w, sid, StartConnection(w, sid, address, attempt))
    ensures StartConnection(w, sid, address, attempt).w.heap[sid].cursor == w.heap[sid].cursor
  {
    var v := ViewOf(w, sid);
    var r := StartConnection(w, sid, address, attempt);
    StartConnectionIs(w, sid, address, attempt);
    if r.ok {
      var fd := FreshFd(w.open, attempt.fd);
      var v1 := TriedPending(v, address);
      PendingMoves(v, address, fd);
      CommitKeeps(w, sid, v1);
      CommitView(w, sid, v1);
      AttachedKeeps(Commit(w, sid, v1), sid, fd);
      AttachedView(Commit(w, sid, v1), sid, fd);
    } else {
      var v1 := TriedFailed(v, address, attempt.errno);
      FailedMoves(v, address, attempt.errno);
      CommitKeeps(w, sid, v1);
      CommitView(w, sid, v1);
    }
  }

  lemma AdvanceMoves(v: View)
    requires Trying(v, []) && v.s.cursor != []
    ensures var v1 := v.(s := v.s.(cursor := v.s.cursor[1..]));
            Moved(v, v1) && Trying(v1, if Usable(v.s.cursor[0]) then [v.s.cursor[0]] else [])
  {
    var c := v.s.cursor;
    if Usable(c[0]) {
      assert Addresses(v.h.tried) + [] + Filter(c) == Addresses(v.h.tried) + [c[0]] + Filter(c[1..]);
    } else {
      assert Filter(c) == Filter(c[1..]);
    }
  }

  /** Moving the cursor on. */
  lemma AdvanceKeeps(w: World, sid: Sid)
    requires InvExcept(w, sid) && Live(w, sid) && Trying(ViewOf(w, sid), []) && w.heap[sid].cursor != []
    ensures var s := w.heap[sid]; var w1 := Put(w, sid, s.(cursor := s.cursor[1..]));
            && s.addresses.Some? && s.addresses.value in w.lists
            && InvExcept(w1, sid) && Live(w1, sid) && ClientInterest(w1, sid) == ClientInterest(w, sid)
            && Trying(ViewOf(w1, sid), if Usable(s.cursor[0]) then [s.cursor[0]] else [])
  {
    var s := w.heap[sid];
    assert OwnRequests(w, sid);
    var v1 := ViewOf(w, sid).(s := s.(cursor := s.cursor[1..]));
    AdvanceMoves(ViewOf(w, sid));
    PutIs(w, sid, v1.s);
    CommitKeeps(w, sid, v1);
    CommitView(w, sid, v1);
  }

  /** start_next_target_connection goes through the rest of the list: either an attempt is under way, or every
      address was tried and failed. */
  lemma {:induction false} StartNextKeeps(w: World, sid: Sid, attempts: seq<Attempt>)
    requires InvExcept(w, sid) && Live(w, sid) && Trying(ViewOf(w, sid), [])
    ensures var r := StartNext(w, sid, attempts);
            && Attempted(w, sid, r)
            && (if r.ok then |r.w.heap[sid].cursor| < |w.heap[sid].cursor| else r.w.heap[sid].cursor == [])
    decreases |w.heap[sid].cursor|
  {
    hide InvExcept, Core, Trying, Begun;

    var s := w.heap[sid];
    if s.cursor != [] {
      AdvanceKeeps(w, sid);
      var w1 := Put(w, sid, s.(cursor := s.cursor[1..]));
      if !Usable(s.cursor[0]) {
        StartNextKeeps(w1, sid, attempts);
      } else {
        StartConnectionKeeps(w1, sid, s.cursor[0], FirstAttempt(attempts));
        var r := StartConnection(w1, sid, s.cursor[0], FirstAttempt(attempts));
        if !r.ok {
          StartNextKeeps(r.w, sid, if attempts == [] then [] else attempts[1..]);
        }
      }
    }
  }
}
