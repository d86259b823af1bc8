/** The end of an attempt and the end of a lookup: target_write while connecting, target_connection_on_resolve. */
module AnswerSteps {
  import opened Basics
  import opened Socks5
  import opened Proxy
  import opened Invariant
  import opened Frames
  import opened Local
  import opened RelaySteps
  import opened Structure
  import opened ConnectSteps
  import opened RequestSteps

  // ---------------------------------------------------------------- target_write while connecting

  ghost function Marked(tried: seq<Try>, outcome: Outcome): seq<Try>
    requires tried != []
  {
    tried[|tried| - 1 := Try(tried[|tried| - 1].address, outcome)]
  }

  lemma MarkedAddresses(tried: seq<Try>, outcome: Outcome)
    requires tried != []
    ensures Addresses(Marked(tried, outcome)) == Addresses(tried)
    ensures Marked(tried, outcome)[..|tried| - 1] == tried[..|tried| - 1]
  {
  }

  ghost function Succeeded(v: View): View
    requires v.h.tried != []
  {
    var v1 := v.(h := v.h.(tried := Marked(v.h.tried, Connected), replies := v.h.replies + [REPLY_SUCCESS],
                           succeeded := true),
                 m := v.m.(successful := v.m.successful + 1), target := Some(NOOP));
    var l := Logged(v1, true);
    l.(s := l.s.(writeBuf := RequestResponse(REPLY_SUCCESS), writeOff := 0, stage := Relay), client := WRITE)
  }

  ghost predicate ConnectingView(v: View) {
    Good(v) && v.s.stage == Connecting
  }

  lemma SucceededMoves(v: View)
    requires ConnectingView(v)
    ensures v.h.tried != [] && Moved(v, Succeeded(v)) && Settled(Succeeded(v))
  {
    hide HistOk, Addresses, AllFailed, EndsWith, Filter, DecideGreeting, DecideAuth, DecideRequest, Marked;
    SucceededHist(v);
    if HasDestination(v.s) {} else {}
  }

  lemma SucceededHist(v: View)
    requires ConnectingView(v)
    ensures v.h.tried != [] && HistOk(Succeeded(v).h)
  {
    MarkedAddresses(v.h.tried, Connected);
    MarkedConnected(v.h.tried);
    hide StageOk, Admitted, AdmittedName, Addresses, Marked, AllFailed, EndsWith, Filter, Flow;
    if HasDestination(v.s) {} else {}
  }

  lemma MarkedConnected(tried: seq<Try>)
    requires EndsWith(tried, Pending)
    ensures var m := Marked(tried, Connected); EndsWith(m, Connected) && !EndsWith(m, Pending) && !AllFailed(m) && m != []
  {
    var m := Marked(tried, Connected);
    assert m[..|m| - 1] == tried[..|tried| - 1];
  }

  lemma SetTargetInterestIs(w: World, sid: Sid, interest: Interest)
    requires Live(w, sid) && w.heap[sid].targetFd.Some?
    ensures SetInterest(w, w.heap[sid].targetFd.value, interest)
            == Commit(w, sid, ViewOf(w, sid).(target := Some(interest)))
  {
    var c := Commit(w, sid, ViewOf(w, sid).(target := Some(interest)));
    assert c.heap == w.heap && c.hist == w.hist;
    assert c.table == SetInterest(w, w.heap[sid].targetFd.value, interest).table;
  }

  lemma MarkIs(w: World, sid: Sid, outcome: Outcome)
    requires Live(w, sid) && w.hist[sid].tried != []
    ensures MarkLastTry(w, sid, outcome)
            == Commit(w, sid, ViewOf(w, sid).(h := w.hist[sid].(tried := Marked(w.hist[sid].tried, outcome))))
  {
    MetersIs(w, sid, w.hist[sid].(tried := Marked(w.hist[sid].tried, outcome)), w.metrics);
  }

  lemma TargetConnectedIs(w: World, sid: Sid)
    requires Live(w, sid) && w.heap[sid].targetFd.Some? && w.hist[sid].tried != []
    ensures TargetConnected(SetInterest(w, w.heap[sid].targetFd.value, NOOP), sid)
            == Commit(w, sid, Succeeded(ViewOf(w, sid)))
  {
    hide LogAccess, Commit, SetInterest, MarkLastTry;
    var v := ViewOf(w, sid);
    var v0 := v.(target := Some(NOOP));
    SetTargetInterestIs(w, sid, NOOP);
    CommitView(w, sid, v0);
    var w0 := Commit(w, sid, v0);
    MarkIs(w0, sid, Connected);
    var v1 := v0.(h := v.h.(tried := Marked(v.h.tried, Connected)));
    CommitTwice(w, sid, v0, v1);
    CommitView(w, sid, v1);
    var w1 := Commit(w, sid, v1);
    var v2 := v1.(h := v1.h.(replies := v1.h.replies + [REPLY_SUCCESS], succeeded := true),
                  m := v.m.(successful := v.m.successful + 1));
    MetersIs(w1, sid, v2.h, v2.m);
    CommitTwice(w, sid, v1, v2);
    CommitView(w, sid, v2);
    ConnectedTail(w, sid, v2);
  }

  /** Logging, the reply and the client's interest. */
  lemma ConnectedTail(w: World, sid: Sid, v2: View)
    requires Live(w, sid) && Kept(w.heap[sid], v2.s) && v2.target.Some? && v2.s.targetFd.Some?
    ensures Live(Commit(w, sid, v2), sid)
    ensures var w2 := LogAccess(Commit(w, sid, v2), sid, true);
            && sid in w2.heap && w2.heap[sid].clientFd.Some?
            && var s := w2.heap[sid]; var l := Logged(v2, true);
            SetInterest(Put(w2, sid, s.(writeBuf := RequestResponse(REPLY_SUCCESS), writeOff := 0, stage := Relay)),
                        s.clientFd.value, WRITE)
            == Commit(w, sid, l.(s := l.s.(writeBuf := RequestResponse(REPLY_SUCCESS), writeOff := 0, stage := Relay),
                                 client := WRITE))
  {
    hide LogAccess, Commit, SetInterest;
    CommitView(w, sid, v2);
    LogAccessIs(Commit(w, sid, v2), sid, true);
    var v3 := Logged(v2, true);
    CommitTwice(w, sid, v2, v3);
    CommitView(w, sid, v3);
    var w3 := Commit(w, sid, v3);
    var v4 := v3.(s := v3.s.(writeBuf := RequestResponse(REPLY_SUCCESS), writeOff := 0, stage := Relay));
    PutIs(w3, sid, v4.s);
    CommitTwice(w, sid, v3, v4);
    CommitView(w, sid, v4);
    SetInterestIs(Commit(w, sid, v4), sid, WRITE);
    CommitTwice(w, sid, v4, v4.(client := WRITE));
  }

  ghost function LastFailed(v: View, errno: int): View
    requires v.h.tried != []
  {
    v.(s := v.s.(lastError := errno), h := v.h.(tried := Marked(v.h.tried, Failed(errno))))
  }

  lemma MarkedFailed(tried: seq<Try>, errno: int)
    requires EndsWith(tried, Pending)
    ensures AllFailed(Marked(tried, Failed(errno))) && LastErrno(Marked(tried, Failed(errno))) == errno
    ensures Marked(tried, Failed(errno)) != [] && !EndsWith(Marked(tried, Failed(errno)), Connected)
  {
    var m := Marked(tried, Failed(errno));
    forall i | 0 <= i < |m| ensures m[i].outcome.Failed? {
      assert i < |m| - 1 ==> m[i] == tried[..|m| - 1][i];
    }
  }

  lemma LastFailedHist(v: View, errno: int)
    requires ConnectingView(v)
    ensures v.h.tried != [] && HistOk(LastFailed(v, errno).h)
  {
    MarkedAddresses(v.h.tried, Failed(errno));
    MarkedFailed(v.h.tried, errno);
    hide Addresses, Marked, AllFailed, EndsWith, Filter, Admitted, AdmittedName, StageOk, Flow;
  }

  lemma LastFailedTries(v: View, errno: int)
    requires ConnectingView(v) && v.h.tried != [] && HistOk(LastFailed(v, errno).h)
    ensures var v1 := LastFailed(v, errno); Trying(v1.(s := v1.s.(targetFd := None), target := None), [])
  {
    MarkedAddresses(v.h.tried, Failed(errno));
    MarkedFailed(v.h.tried, errno);
    assert Addresses(Marked(v.h.tried, Failed(errno))) + [] + Filter(v.s.cursor) == Addresses(v.h.tried) + Filter(v.s.cursor);
    hide HistOk, Addresses, Marked, AllFailed, EndsWith, LastErrno, Filter, Admitted, AdmittedName, Flow;
  }

  lemma LastFailedMoves(v: View, errno: int)
    requires ConnectingView(v)
    ensures v.h.tried != [] && Moved(v, LastFailed(v, errno))
    ensures var v1 := LastFailed(v, errno); Trying(v1.(s := v1.s.(targetFd := None), target := None), [])
  {
    LastFailedHist(v, errno);
    LastFailedTries(v, errno);
    hide HistOk, Trying, Addresses, Marked, AllFailed, EndsWith, Filter, Admitted, AdmittedName, Flow;
  }

  lemma LastFailedIs(w: World, sid: Sid, errno: int)
    requires Live(w, sid) && w.hist[sid].tried != []
    ensures Put(MarkLastTry(w, sid, Failed(errno)), sid, w.heap[sid].(lastError := errno))
            == Commit(w, sid, LastFailed(ViewOf(w, sid), errno))
  {
    var v := LastFailed(ViewOf(w, sid), errno);
    StoreIs(w, sid, v.s, v.h, w.metrics);
  }

  /** The pending attempt failed: its descriptor is closed and the next address is up. */
  lemma AttemptOver(w: World, sid: Sid, errno: int)
    requires InvExcept(w, sid) && Live(w, sid) && ConnectingView(ViewOf(w, sid))
    ensures w.heap[sid].targetFd.Some?
    ensures var s := w.heap[sid];
            var r := Unregister(Put(MarkLastTry(w, sid, Failed(errno)), sid, s.(lastError := errno)), s.targetFd.value);
            && InvExcept(r, sid) && Live(r, sid) && Trying(ViewOf(r, sid), [])
            && r.heap[sid].clientFd == s.clientFd && r.heap[sid].readBuf == s.readBuf && r.heap[sid].cursor == s.cursor
            && ClientInterest(r, sid) == ClientInterest(w, sid)
  {
    hide InvExcept, ConnectingView, Unregister, Trying, HistOk, MetersMatch, Commit, Detached, MarkLastTry, Marked;
    var v := ViewOf(w, sid);
    OpenIsRegistered(w, sid);
    ConnectingIdle(v);
    LastFailedMoves(v, errno);
    LastFailedIs(w, sid, errno);
    var v1 := LastFailed(v, errno);
    CommitKeeps(w, sid, v1);
    CommitView(w, sid, v1);
    var w1 := Commit(w, sid, v1);
    DetachedKeeps(w1, sid);
    OpenIsRegistered(w1, sid);
    DetachedView(w1, sid);
  }

  lemma OpenIsRegistered(w: World, sid: Sid)
    requires InvExcept(w, sid)
    ensures w.open == w.table.Keys
  {
  }

  lemma NoopIsSettled(v: View)
    requires Begun(v) && v.client == NOOP && v.s.readBuf == []
    ensures Settled(v)
  {
  }

  /** target_write after the failed attempt: the next one is under way, or the client is refused. */
  lemma TargetFailedKeeps(w: World, sid: Sid, r: Started)
    requires Live(w, sid) && Attempted(w, sid, r) && (!r.ok ==> r.w.heap[sid].cursor == [])
    requires w.heap[sid].readBuf == [] && ClientInterest(w, sid) == NOOP
    ensures NearlyDone(TargetFailed(r, sid), sid) && TargetFailed(r, sid).heap[sid].readBuf == []
  {
    hide InvExcept, Begun, Trying, Refuse;
    var v := ViewOf(r.w, sid);
    if r.ok {
      NoopIsSettled(v);
    } else {
      TryingIsRefusable(v);
      RefuseKeeps(r.w, sid, ReplyForErrno(v.s.lastError));
    }
  }

  lemma Finish(w: World, sid: Sid)
    requires NearlyDone(w, sid) && w.heap[sid].readBuf == []
    ensures Inv(w)
  {
    assert w.heap[sid].(readBuf := []) == w.heap[sid];
    assert SessionOk(w, sid);
  }

  lemma ConnectingIdle(v: View)
    requires ConnectingView(v)
    ensures v.s.readBuf == [] && v.client == NOOP && v.s.targetFd.Some? && v.s.stage == Connecting
  {
  }

  /** target_write in the connecting stage. */
  lemma TargetWriteConnectingKeeps(w: World, sid: Sid, io: Io)
    requires InvExcept(w, sid) && Live(w, sid) && ConnectingView(ViewOf(w, sid))
    ensures w.heap[sid].targetFd.Some? && Inv(TargetWrite(w, w.heap[sid].targetFd.value, sid, io))
  {
    var v := ViewOf(w, sid);
    assert v.s.stage == Connecting;
    hide InvExcept, Inv, ConnectingView, Unregister, Trying, TargetConnected, TargetFailed, StartNext, MarkLastTry;
    ConnectingIdle(v);
    if io.soError == Reported(0) {
      SucceededMoves(v);
      TargetConnectedIs(w, sid);
      CommitKeeps(w, sid, Succeeded(v));
      CommitView(w, sid, Succeeded(v));
      StayKeeps(w, sid, Succeeded(v));
    } else {
      var errno := if io.soError.Reported? then io.soError.error else io.soError.errno;
      AttemptOver(w, sid, errno);
      var w1 := Unregister(Put(MarkLastTry(w, sid, Failed(errno)), sid, v.s.(lastError := errno)), v.s.targetFd.value);
      StartNextKeeps(w1, sid, io.attempts);
      TargetFailedKeeps(w1, sid, StartNext(w1, sid, io.attempts));
      Finish(TargetFailed(StartNext(w1, sid, io.attempts), sid), sid);
    }
  }

  // ---------------------------------------------------------------- target_connection_on_resolve

  ghost predicate ResolvingView(v: View) {
    Good(v) && v.s.stage == Resolving
  }

  ghost function Resolved(v: View, j: Jid, list: seq<Address>): View {
    v.(h := v.h.(resolved := Some(j), candidates := Filter(list)))
  }

  lemma TakenView(w: World, sid: Sid)
    requires Live(w, sid) && w.heap[sid].job.Some? && w.heap[sid].job.value in w.jobs
    ensures var r := Taken(w, sid); var v := ViewOf(w, sid);
            Live(r, sid) && ViewOf(r, sid) == v.(s := r.heap[sid])
  {
  }

  lemma UnansweredIsRefusable(v: View, code: byte)
    requires ResolvingView(v)
    ensures Refusable(v.(s := v.s.(job := None)), code)
  {
  }

  lemma ResolvedMoves(v: View, j: Jid, list: seq<Address>)
    requires ResolvingView(v)
    ensures var v0 := v.(s := v.s.(job := None, addresses := Some(j), cursor := list));
            var v1 := Resolved(v0, j, list);
            SameTies(v0, v1) && MetersMatch(v0, v1) && HistOk(v1.h) && Trying(v1, [])
  {
    assert Addresses([]) + [] + Filter(list) == Filter(list);
  }

  /** The finished job of a waiting session, and what its thread found. */
  lemma FinishedJob(w: World, sid: Sid, j: Jid)
    requires InvExcept(w, sid) && Live(w, sid) && w.heap[sid].job == Some(j)
    ensures j in w.jobs && j < |w.origins| && w.origins[j].sid == sid && AsksFor(w.hist[sid], w.origins[j].name, w.origins[j].port)
    ensures w.jobs[j].done ==> Answered(w, j, w.jobs[j].status, w.jobs[j].result)
  {
    assert OwnRequests(w, sid) && OwnAnswer(w, sid);
    assert Phase(w, j) && Waiting(w, j);
  }

  /** A lookup that found nothing explains the refusal. */
  lemma LookupExplains(w: World, sid: Sid, j: Jid)
    requires Live(w, sid) && ResolvingView(ViewOf(w, sid)) && w.heap[sid].job == Some(j) && j in w.jobs && j < |w.origins|
    requires !w.jobs[j].result && Answered(w, j, w.jobs[j].status, false)
    ensures Explains(w.origins, w.hist[sid], ReplyForGaiError(w.jobs[j].status))
  {
  }

  lemma OwnResolved(w: World, sid: Sid, j: Jid)
    requires Live(w, sid) && ResolvingView(ViewOf(w, sid)) && w.heap[sid].job == Some(j) && j in w.jobs && j < |w.origins|
    requires w.origins[j].sid == sid && AsksFor(w.hist[sid], w.origins[j].name, w.origins[j].port)
    requires w.jobs[j].result && Answered(w, j, w.jobs[j].status, true)
    ensures Live(Taken(w, sid), sid)
    ensures OwnAnswer(Commit(Taken(w, sid), sid, Resolved(ViewOf(Taken(w, sid), sid), j, w.lists[j])), sid)
  {
    TakenView(w, sid);
  }

  lemma TakeAnswerIs(w: World, sid: Sid, j: Jid, io: Io)
    requires Live(w, sid) && w.heap[sid].job == Some(j) && j in w.jobs
    requires w.jobs[j].result ==> w.jobs[j].status == 0 && j in w.lists
    requires w.heap[sid].addresses.None? && w.heap[sid].cursor == []
    ensures Live(Taken(w, sid), sid)
    ensures var fd := w.heap[sid].clientFd.value; var t := Taken(w, sid);
            TakeAnswer(w, fd, sid, j, io) ==
            if !w.jobs[j].result then SetInterest(Refuse(t, sid, ReplyForGaiError(w.jobs[j].status), true), fd, WRITE)
            else AfterStart(StartNext(Commit(t, sid, Resolved(ViewOf(t, sid), j, w.lists[j])), sid, io.attempts), fd, sid)
  {
    hide Refuse, SetInterest, StartNext, AfterStart;
    TakenView(w, sid);
    var t := Taken(w, sid);
    if w.jobs[j].result {
      var v := Resolved(ViewOf(t, sid), j, w.lists[j]);
      StoreIs(t, sid, v.s, v.h, w.metrics);
      var s := w.heap[sid];
      var w1 := Put(FreeJob(w, j), sid, s.(job := None));
      assert w1.heap[sid := v.s] == t.heap[sid := v.s];
    }
  }

  lemma ResolvingIdle(v: View)
    requires ResolvingView(v)
    ensures v.s.readBuf == [] && v.s.job.Some? && v.s.addresses.None? && v.s.cursor == []
  {
  }

  /** Nothing but lookups, threads and notifications changed. */
  ghost predicate SameSessions(w: World, w': World) {
    && w'.heap == w.heap && w'.table == w.table && w'.open == w.open && w'.hist == w.hist
    && w'.metrics == w.metrics && w'.active == w.active
    && w'.fault == w.fault && w'.staleErrnoTested == w.staleErrnoTested
  }

  lemma SameSessionsKeep(w: World, w': World, sid: Sid)
    requires InvExcept(w, sid) && SameSessions(w, w') && Resolution(w')
    ensures InvExcept(w', sid)
    ensures Inv(w) ==> Inv(w')
  {
    SameDescriptorsKeep(w, w');
    forall x | x in w'.heap && SessionOk(w, x) ensures SessionOk(w', x) { }
  }

  ghost function Popped(w: World): World
    requires w.queue != []
  {
    w.(queue := w.queue[1..])
  }

  /** A notification may go when no session it could wake has a finished job. */
  ghost predicate Spent(w: World) {
    w.queue != [] &&
    forall x | x in w.heap && w.heap[x].clientFd == Some(w.queue[0]) ::
      w.heap[x].job.None? || (w.heap[x].job.value in w.jobs && !w.jobs[w.heap[x].job.value].done)
  }

  lemma PoppedKeepsResolution(w: World)
    requires Resolution(w) && Spent(w)
    ensures Resolution(Popped(w))
  {
    var w' := Popped(w);
    assert w.queue == [w.queue[0]] + w'.queue;
    forall j | 0 <= j < |w'.origins| ensures Phase(w', j) {
      assert Phase(w, j);
      assert Waiting(w', j) == Waiting(w, j) && Holding(w', j) == Holding(w, j);
    }
    forall x | x in w'.heap ensures OwnRequests(w', x) { assert OwnRequests(w, x); }
    forall x | 0 <= x < |w'.hist| ensures OwnAnswer(w', x) { assert OwnAnswer(w, x); }
  }

  lemma PoppedKeeps(w: World, sid: Sid)
    requires InvExcept(w, sid) && Spent(w)
    ensures InvExcept(Popped(w), sid)
    ensures Inv(w) ==> Inv(Popped(w))
  {
    PoppedKeepsResolution(w);
    SameSessionsKeep(w, Popped(w), sid);
  }

  /** The client descriptors of different sessions differ. */
  lemma DistinctClients(w: World, sid: Sid, x: Sid)
    requires Linkage(w) && sid in w.heap && x in w.heap && x != sid
    ensures w.heap[x].clientFd != w.heap[sid].clientFd
  {
    assert Anchored(w, sid) && Anchored(w, x);
  }

  /** Once the woken session took its answer, the notification that woke it is spent. */
  lemma TakenIsSpent(w: World, sid: Sid)
    requires InvExcept(w, sid) && Live(w, sid) && w.heap[sid].job.Some? && w.heap[sid].job.value in w.jobs
    requires w.queue != [] && w.heap[sid].clientFd == Some(w.queue[0])
    ensures Spent(Taken(w, sid))
  {
    hide Linkage, Resolution, Accounts, HistOk, SessionOk;
    forall x | x in w.heap && x != sid ensures w.heap[x].clientFd != Some(w.queue[0]) { DistinctClients(w, sid, x); }
  }

  /** The world once a finished job is freed and its notification gone. */
  lemma AnswerTaken(w0: World, sid: Sid, j: Jid)
    requires InvExcept(w0, sid) && Live(w0, sid) && ResolvingView(ViewOf(w0, sid))
    requires w0.heap[sid].job == Some(j) && j in w0.jobs && w0.jobs[j].done
    requires w0.queue != [] && w0.heap[sid].clientFd == Some(w0.queue[0])
    ensures w0.jobs[j].result ==> w0.jobs[j].status == 0 && j in w0.lists
    ensures var w := Popped(w0); var t := Taken(w, sid); var v := ViewOf(w0, sid);
            && t == Popped(Taken(w0, sid)) && InvExcept(t, sid) && Live(t, sid) && ViewOf(t, sid) == v.(s := t.heap[sid])
            && t.heap[sid] == (if w.jobs[j].result then v.s.(job := None, addresses := Some(j), cursor := w.lists[j])
                               else v.s.(job := None))
            && w.heap[sid].addresses.None? && w.heap[sid].cursor == []
  {
    hide InvExcept, ResolvingView, Spent, AsksFor;
    ResolvingIdle(ViewOf(w0, sid));
    FinishedJob(w0, sid, j);
    TakenKeeps(w0, sid);
    TakenIsSpent(w0, sid);
    PoppedKeeps(Taken(w0, sid), sid);
    TakenView(w0, sid);
    hide Answered;
    assert Taken(Popped(w0), sid) == Popped(Taken(w0, sid));
  }

  /** And once the session has taken its list over. */
  lemma ListTaken(w0: World, sid: Sid, j: Jid)
    requires InvExcept(w0, sid) && Live(w0, sid) && ResolvingView(ViewOf(w0, sid))
    requires w0.heap[sid].job == Some(j) && j in w0.jobs && w0.jobs[j].done && w0.jobs[j].result
    requires w0.queue != [] && w0.heap[sid].clientFd == Some(w0.queue[0])
    ensures j in w0.lists && Live(Taken(Popped(w0), sid), sid)
    ensures var t := Taken(Popped(w0), sid); var v1 := Resolved(ViewOf(t, sid), j, w0.lists[j]); var w2 := Commit(t, sid, v1);
            InvExcept(w2, sid) && Live(w2, sid) && ViewOf(w2, sid) == v1 && Trying(v1, [])
  {
    hide InvExcept, ResolvingView, Trying, HistOk, OwnAnswer, Answered, AsksFor, MetersMatch, Commit;
    AnswerTaken(w0, sid, j);
    FinishedJob(w0, sid, j);
    var w := Popped(w0);
    var t := Taken(w, sid);
    ResolvedMoves(ViewOf(w0, sid), j, w.lists[j]);
    OwnResolved(w, sid, j);
    var v1 := Resolved(ViewOf(t, sid), j, w.lists[j]);
    CommitAsks(t, sid, v1);
    CommitView(t, sid, v1);
  }

  /** target_connection_on_resolve with a finished job, run for the notification at the head of the queue. */
  lemma TakeAnswerKeeps(w0: World, sid: Sid, j: Jid, io: Io)
    requires InvExcept(w0, sid) && Live(w0, sid) && ResolvingView(ViewOf(w0, sid))
    requires w0.heap[sid].job == Some(j) && j in w0.jobs && w0.jobs[j].done
    requires w0.queue != [] && w0.heap[sid].clientFd == Some(w0.queue[0])
    ensures Inv(TakeAnswer(Popped(w0), w0.heap[sid].clientFd.value, sid, j, io))
  {
    hide InvExcept, Inv, ResolvingView, TakeAnswer, Refuse, SetInterest, StartNext, AfterStart, Trying, Refusable,
      Explains, Answered, AsksFor, Commit;
    var v, w := ViewOf(w0, sid), Popped(w0);
    var t := Taken(w, sid);
    AnswerTaken(w0, sid, j);
    ResolvingIdle(v);
    TakeAnswerIs(w, sid, j, io);
    if !w.jobs[j].result {
      var code := ReplyForGaiError(w.jobs[j].status);
      FinishedJob(w0, sid, j);
      UnansweredIsRefusable(v, code);
      LookupExplains(w0, sid, j);
      RefuseKeeps(t, sid, code);
      Finish(SetInterest(Refuse(t, sid, code, true), w.heap[sid].clientFd.value, WRITE), sid);
    } else {
      ListTaken(w0, sid, j);
      var w2 := Commit(t, sid, Resolved(ViewOf(t, sid), j, w.lists[j]));
      StartNextKeeps(w2, sid, io.attempts);
      AfterStartKeeps(w2, sid, StartNext(w2, sid, io.attempts));
      Finish(AfterStart(StartNext(w2, sid, io.attempts), w.heap[sid].clientFd.value, sid), sid);
    }
  }
}
