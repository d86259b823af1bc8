/** What the connection code adds to the history of its session: which attempts it makes and how each ends, told from the
    results of the calls alone. */
module Histories {
  import opened Basics
  import opened Socks5
  import opened Proxy
  import opened Isolation

  lemma RememberPast(w: World, sid: Sid, h: Hist, x: Sid)
    ensures Past(Remember(w, sid, h), x) == if x == sid && sid < |w.hist| then h else Past(w, x)
    ensures |Remember(w, sid, h).hist| == |w.hist|
  {
    if sid < |w.hist| {} else {}
  }

  lemma SamePast(w: World, r: World, x: Sid)
    requires r.hist == w.hist
    ensures Past(r, x) == Past(w, x)
  {
  }

  /** A history without its access records. */
  ghost function Unlogged(h: Hist): Hist {
    h.(records := [])
  }

  lemma LogAccessPast(w: World, sid: Sid, success: bool, x: Sid)
    ensures |LogAccess(w, sid, success).hist| == |w.hist|
    ensures x != sid ==> Past(LogAccess(w, sid, success), x) == Past(w, x)
    ensures Unlogged(Past(LogAccess(w, sid, success), x)) == Unlogged(Past(w, x))
  {
    if sid in w.heap {
      hide Remember, Put;
      var s, h := w.heap[sid], Past(w, sid);
      var h' := h.(records := h.records + [Record(s.username, s.destination, s.port, success)]);
      RememberPast(w, sid, h', x);
      PutPast(Remember(w, sid, h'), sid, s.(accessLogged := true), x);
    }
  }

  lemma PutPast(w: World, sid: Sid, s: Session, x: Sid)
    ensures Past(Put(w, sid, s), x) == Past(w, x) && |Put(w, sid, s).hist| == |w.hist|
  {
  }

  lemma SetInterestPast(w: World, fd: Fd, interest: Interest, x: Sid)
    ensures Past(SetInterest(w, fd, interest), x) == Past(w, x) && |SetInterest(w, fd, interest).hist| == |w.hist|
    ensures SetInterest(w, fd, interest).heap == w.heap
  {
    if fd in w.table {} else {}
  }

  /** A failure reply that is counted. */
  ghost function Counted(w: World, sid: Sid, code: byte): World {
    var h := Past(w, sid);
    Remember(w, sid, h.(replies := h.replies + [code])).(metrics := w.metrics.(failed := w.metrics.failed + 1))
  }

  lemma CountedPast(w: World, sid: Sid, code: byte, x: Sid)
    requires sid < |w.hist|
    ensures var r := Counted(w, sid, code); var h := Past(w, sid);
            && |r.hist| == |w.hist| && r.heap == w.heap
            && Past(r, x) == if x == sid then h.(replies := h.replies + [code]) else Past(w, x)
  {
    if x == sid {} else {}
  }

  /** A failure reply that is counted, and logged if asked to. */
  ghost function Noted(w: World, sid: Sid, code: byte, logged: bool): World {
    if logged then LogAccess(Counted(w, sid, code), sid, false) else Counted(w, sid, code)
  }

  lemma NotedPast(w: World, sid: Sid, code: byte, logged: bool, x: Sid)
    requires sid < |w.hist|
    ensures var r := Noted(w, sid, code, logged); var h := Past(w, sid);
            && |r.hist| == |w.hist| && (x != sid ==> Past(r, x) == Past(w, x))
            && (x == sid ==> Unlogged(Past(r, x)) == Unlogged(h.(replies := h.replies + [code])))
  {
    hide Counted, LogAccess, Past, Unlogged;
    CountedPast(w, sid, code, x);
    if logged { LogAccessPast(Counted(w, sid, code), sid, false, x); }
  }

  lemma RefuseNotes(w: World, sid: Sid, code: byte, logged: bool)
    requires sid in w.heap
    ensures Refuse(w, sid, code, logged).hist == Noted(w, sid, code, logged).hist
  {
    hide LogAccess, Remember, RequestResponse;
    if logged {} else {}
  }

  /** A refusal adds its code, and a record. */
  lemma RefusePast(w: World, sid: Sid, code: byte, logged: bool, x: Sid)
    requires sid in w.heap && sid < |w.hist|
    ensures var r := Refuse(w, sid, code, logged); var h := Past(w, sid);
            && |r.hist| == |w.hist| && (x != sid ==> Past(r, x) == Past(w, x))
            && (x == sid ==> Unlogged(Past(r, x)) == Unlogged(h.(replies := h.replies + [code])))
  {
    hide Refuse, Noted, Unlogged;
    RefuseNotes(w, sid, code, logged);
    NotedPast(w, sid, code, logged, x);
    SamePast(Noted(w, sid, code, logged), Refuse(w, sid, code, logged), x);
  }

  // ---------------------------------------------------------------- attempts

  /** An attempt gets under way exactly when connect does and the selector has room for the descriptor. */
  ghost predicate Starts(attempt: Attempt, open: set<Fd>) {
    attempt.Underway? && FreshFd(open, attempt.fd) < 1024
  }

  /** The attempts made on `candidates`, one after the other: each fails with its errno, until one gets under way. When the
      results run out, no socket can be had. */
  ghost function Tries(candidates: seq<Address>, attempts: seq<Attempt>, open: set<Fd>): seq<Try> {
    if candidates == [] then []
    else if attempts == [] then [Try(candidates[0], Failed(24))] + Tries(candidates[1..], [], open)
    else if Starts(attempts[0], open) then [Try(candidates[0], Pending)]
    else [Try(candidates[0], Failed(attempts[0].errno))] + Tries(candidates[1..], attempts[1..], open)
  }

  lemma AttemptFailedPast(w: World, sid: Sid, address: Address, errno: int, x: Sid)
    requires sid in w.heap && sid < |w.hist|
    ensures var r := AttemptFailed(w, sid, address, errno); var h := Past(w, sid);
            && !r.ok && |r.w.hist| == |w.hist| && sid in r.w.heap && r.w.open == w.open && r.w.table == w.table && r.w.lists == w.lists
            && r.w.heap[sid] == w.heap[sid].(lastError := errno)
            && Past(r.w, x) == if x == sid then h.(tried := h.tried + [Try(address, Failed(errno))]) else Past(w, x)
  {
    if x == sid {} else {}
  }

  lemma LaunchedPast(w: World, sid: Sid, fd: Fd, address: Address, x: Sid)
    requires sid in w.heap && sid < |w.hist|
    ensures var r := Launched(w, sid, fd, address); var h := Past(w, sid);
            && |r.hist| == |w.hist| && sid in r.heap
            && Past(r, x) == if x == sid then h.(tried := h.tried + [Try(address, Pending)]) else Past(w, x)
  {
    if x == sid {} else {}
  }

  /** One call of start_target_connection: it reports success exactly when the attempt is under way, and its failure
      leaves descriptors and registrations as they were. */
  lemma StartConnectionPast(w: World, sid: Sid, address: Address, attempt: Attempt, x: Sid)
    requires sid in w.heap && sid < |w.hist| && w.open == w.table.Keys
    ensures var r := StartConnection(w, sid, address, attempt); var h := Past(w, sid);
            && |r.w.hist| == |w.hist| && sid in r.w.heap && (r.ok <==> Starts(attempt, w.open))
            && (!r.ok ==> r.w.open == w.open && r.w.table == w.table && r.w.lists == w.lists
                          && r.w.heap[sid].addresses == w.heap[sid].addresses && r.w.heap[sid].cursor == w.heap[sid].cursor)
            && Past(r.w, x) == if x == sid then h.(tried := h.tried + [Try(address, if r.ok then Pending else Failed(attempt.errno))])
                               else Past(w, x)
  {
    hide StartConnection, AttemptFailed, Launched;
    ConnectionStarts(w, sid, address, attempt);
    AttemptFailedPast(w, sid, address, attempt.errno, x);
    PutPast(w, sid, w.heap[sid].(targetFd := None), x);
    PutPast(w, sid, w.heap[sid].(targetFd := None), sid);
    AttemptFailedPast(Abandoned(w, sid), sid, address, attempt.errno, x);
    if attempt.Underway? { LaunchedPast(w, sid, FreshFd(w.open, attempt.fd), address, x); }
  }

  ghost predicate UnderWay(tried: seq<Try>) {
    tried != [] && tried[|tried| - 1].outcome == Pending
  }

  lemma UnderWayLater(t: Try, rest: seq<Try>)
    requires t.outcome != Pending
    ensures UnderWay([t] + rest) <==> UnderWay(rest)
  {
  }

  /** start_next_target_connection: the attempts made are those on the usable addresses ahead, in order. */
  lemma {:induction false} StartNextPast(w: World, sid: Sid, attempts: seq<Attempt>, x: Sid)
    requires sid in w.heap && sid < |w.hist| && w.open == w.table.Keys
    requires w.heap[sid].cursor != [] ==> w.heap[sid].addresses.Some? && w.heap[sid].addresses.value in w.lists
    ensures var r := StartNext(w, sid, attempts); var h := Past(w, sid);
            var tries := Tries(Filter(w.heap[sid].cursor), attempts, w.open);
            && |r.w.hist| == |w.hist| && sid in r.w.heap && (r.ok <==> UnderWay(tries))
            && Past(r.w, x) == if x == sid then h.(tried := h.tried + tries) else Past(w, x)
    decreases |w.heap[sid].cursor|
  {
    hide StartConnection, Past;
    var s, h := w.heap[sid], Past(w, sid);
    if s.cursor == [] {
      assert h.tried + [] == h.tried;
    } else {
      var w1 := Put(w, sid, s.(cursor := s.cursor[1..]));
      PutPast(w, sid, s.(cursor := s.cursor[1..]), x);
      PutPast(w, sid, s.(cursor := s.cursor[1..]), sid);
      if !Usable(s.cursor[0]) {
        StartNextPast(w1, sid, attempts, x);
      } else {
        var attempt := FirstAttempt(attempts);
        StartConnectionPast(w1, sid, s.cursor[0], attempt, x);
        StartConnectionPast(w1, sid, s.cursor[0], attempt, sid);
        var r := StartConnection(w1, sid, s.cursor[0], attempt);
        var rest := Filter(s.cursor[1..]);
        assert ([s.cursor[0]] + rest)[1..] == rest;
        if !r.ok {
          var later := if attempts == [] then [] else attempts[1..];
          StartNextPast(r.w, sid, later, x);
          var t := Try(s.cursor[0], Failed(attempt.errno));
          UnderWayLater(t, Tries(rest, later, w.open));
          assert h.tried + [t] + Tries(rest, later, w.open) == h.tried + ([t] + Tries(rest, later, w.open));
        }
      }
    }
  }

  lemma AfterStartPast(r: Started, fd: Fd, sid: Sid, x: Sid)
    requires sid in r.w.heap && sid < |r.w.hist|
    ensures var w := AfterStart(r, fd, sid); var h := Past(r.w, sid); var code := ReplyForErrno(r.w.heap[sid].lastError);
            && |w.hist| == |r.w.hist| && (x != sid ==> Past(w, x) == Past(r.w, x))
            && (x == sid ==> Unlogged(Past(w, x)) == Unlogged(if r.ok then h else h.(replies := h.replies + [code])))
  {
    hide Refuse, SetInterest, Past, Unlogged;
    var code := ReplyForErrno(r.w.heap[sid].lastError);
    RefusePast(r.w, sid, code, true, x);
    SetInterestPast(r.w, fd, NOOP, x);
    SetInterestPast(Refuse(r.w, sid, code, true), fd, WRITE, x);
  }

  lemma TargetFailedPast(r: Started, sid: Sid, x: Sid)
    requires sid in r.w.heap && sid < |r.w.hist|
    ensures var w := TargetFailed(r, sid); var h := Past(r.w, sid); var code := ReplyForErrno(r.w.heap[sid].lastError);
            && |w.hist| == |r.w.hist| && (x != sid ==> Past(w, x) == Past(r.w, x))
            && (x == sid ==> Unlogged(Past(w, x)) == Unlogged(if r.ok then h else h.(replies := h.replies + [code])))
  {
    hide Refuse, SetInterest, Past, Unlogged;
    var s := r.w.heap[sid];
    RefusePast(r.w, sid, ReplyForErrno(s.lastError), true, x);
    if s.clientFd.Some? { SetInterestPast(Refuse(r.w, sid, ReplyForErrno(s.lastError), true), s.clientFd.value, WRITE, x); }
  }

  lemma BeginLookupPast(w: World, fd: Fd, sid: Sid, request: ConnectRequest, io: Io, x: Sid)
    requires sid in w.heap && sid < |w.hist|
    ensures var r := BeginLookup(w, fd, sid, request, io); var h := Past(w, sid);
            && |r.hist| == |w.hist| && (x != sid ==> Past(r, x) == Past(w, x))
            && (x == sid ==> Unlogged(Past(r, x)) == Unlogged(if io.resolverStarts then h.(lookup := Some(|w.origins|))
                                                              else h.(replies := h.replies + [1])))
  {
    if io.resolverStarts {
      hide SetInterest, Remember, Put, CString;
      var s := w.heap[sid];
      var j := |w.origins|;
      var w1 := w.(origins := w.origins + [Origin(sid, CString(request.address), request.port, None)],
                   jobs := w.jobs[j := Job(if s.clientFd.Some? then s.clientFd.value else 0, Some(sid), false, EAI_AGAIN, false)],
                   threads := w.threads[j := Lookup]);
      var h := Past(w1, sid).(lookup := Some(j));
      SamePast(w, w1, x);
      SamePast(w, w1, sid);
      RememberPast(w1, sid, h, x);
      PutPast(Remember(w1, sid, h), sid, s.(job := Some(j), stage := Resolving), x);
      SetInterestPast(Put(Remember(w1, sid, h), sid, s.(job := Some(j), stage := Resolving)), fd, NOOP, x);
    } else {
      hide Refuse, SetInterest;
      RefusePast(w, sid, REPLY_GENERAL_FAILURE, true, x);
      SetInterestPast(Refuse(w, sid, REPLY_GENERAL_FAILURE, true), fd, WRITE, x);
    }
  }
}
