/** Every event keeps the invariant, so it holds in every reachable state. */
module Events {
  import opened Basics
  import opened Proxy
  import opened Invariant
  import opened AnswerSteps
  import opened Local
  import opened Isolation
  import opened Handlers

  // ---------------------------------------------------------------- lookups and notifications

  /** A notification stays due while its session and its job stay. */
  lemma StillDue(w: World, r: World, fd: Fd)
    requires Inv(r) && Due(w, fd) && SameAt(w, r, w.table[fd].sid)
    requires var j := w.heap[w.table[fd].sid].job.value; j in r.jobs && r.jobs[j] == w.jobs[j] && j !in r.threads
    ensures Due(r, fd)
  {
    hide Resolution, Accounts, HistOk, SessionOk;
    assert Anchored(r, w.table[fd].sid);
  }

  lemma StillWaiting(w: World, r: World, sid: Sid, j: Jid)
    requires Isolated(w, r, sid) && w.origins <= r.origins && j < |w.origins| && Waiting(w, j)
    requires sid in w.heap && w.heap[sid].job.None?
    ensures Waiting(r, j)
  {
    assert SameAt(w, r, w.origins[j].sid);
  }

  /** No lookup is numbered ahead of time. */
  lemma LookupsAreNumbered(w: World)
    requires Inv(w)
    ensures |w.origins| !in w.jobs && |w.origins| !in w.threads
  {
    hide Linkage, Accounts, HistOk, SessionOk, Phase, OwnRequests, OwnAnswer;
  }

  lemma HandlerJob(w: World, r: World, sid: Sid, j: Jid)
    requires Inv(w) && Awaited(w) && Inv(r) && Isolated(w, r, sid) && Work(w, r, sid)
    requires sid in w.heap && w.heap[sid].job.None? && j in r.jobs
    ensures j < |r.origins| && Waiting(r, j)
  {
    hide Inv, Isolated, Due;
    LookupsAreNumbered(w);
    if j in w.jobs { StillWaiting(w, r, sid, j); } else { OwnLookup(r, sid); }
  }

  lemma HandlerDue(w: World, r: World, sid: Sid, fd: Fd)
    requires Inv(w) && Isolated(w, r, sid) && Work(w, r, sid) && Inv(r)
    requires sid in w.heap && w.heap[sid].job.None? && Due(w, fd)
    ensures Due(r, fd)
  {
    hide Inv, Isolated;
    LookupsAreNumbered(w);
    DueIsNot(w, fd, sid);
    DueHasJob(w, fd);
    assert SameAt(w, r, w.table[fd].sid) by { Elsewhere(w, r, sid, w.table[fd].sid); }
    StillDue(w, r, fd);
  }

  /** A session's handler keeps every job awaited and every notification due. */
  lemma HandlerKeepsAwaited(w: World, r: World, sid: Sid)
    requires Inv(w) && Awaited(w) && Inv(r) && Isolated(w, r, sid) && Work(w, r, sid)
    requires sid in w.heap && w.heap[sid].job.None?
    ensures Awaited(r)
  {
    hide Inv, Isolated, Due, Waiting;
    forall j | j in r.jobs ensures j < |r.origins| && Waiting(r, j) { HandlerJob(w, r, sid, j); }
    forall k | 0 <= k < |r.queue| ensures Due(r, r.queue[k]) { HandlerDue(w, r, sid, w.queue[k]); }
  }

  lemma Elsewhere(w: World, r: World, sid: Sid, x: Sid)
    requires Isolated(w, r, sid) && x != sid
    ensures SameAt(w, r, x)
  {
  }

  lemma DueHasJob(w: World, fd: Fd)
    requires Due(w, fd)
    ensures fd in w.table && w.table[fd].sid in w.heap && w.heap[w.table[fd].sid].job.Some?
    ensures var j := w.heap[w.table[fd].sid].job.value; j in w.jobs && j !in w.threads
  {
  }

  lemma DueIsNot(w: World, fd: Fd, sid: Sid)
    requires Due(w, fd) && sid in w.heap && w.heap[sid].job.None?
    ensures fd in w.table && w.table[fd].sid != sid
  {
  }

  lemma OwnLookup(w: World, sid: Sid)
    requires Inv(w) && sid in w.heap && w.heap[sid].job.Some?
    ensures w.heap[sid].job.value < |w.origins| && Waiting(w, w.heap[sid].job.value)
  {
    assert OwnRequests(w, sid);
  }

  /** Draining a notification ends its job and nothing else. */
  lemma DrainKeepsAwaited(w: World, io: Io)
    requires Inv(w) && Awaited(w)
    ensures Inv(DrainOne(w, io)) && Awaited(DrainOne(w, io))
  {
    if w.queue != [] {
      assert Due(w, w.queue[0]);
      DrainKeeps(w, io);
      DrainedAwaited(w, io);
    }
  }

  lemma DrainedAwaited(w: World, io: Io)
    requires Inv(w) && Awaited(w) && w.queue != [] && Due(w, w.queue[0]) && Inv(DrainOne(w, io))
    ensures Awaited(DrainOne(w, io))
  {
    hide Inv, TakeAnswer, Due;
    var fd := w.queue[0];
    DueHasJob(w, fd);
    var sid := w.table[fd].sid;
    var j := w.heap[sid].job.value;
    DrainIs(w, io);
    var r := DrainOne(w, io);
    var w1 := w.(queue := w.queue[1..]);
    TakeAnswerIsolated(w1, fd, sid, j, io, sid + 1);
    forall i | i in r.jobs ensures i < |r.origins| && Waiting(r, i) {
      assert Waiting(w, i);
      TakeAnswerIsolated(w1, fd, sid, j, io, w.origins[i].sid);
    }
    forall k | 0 <= k < |r.queue| ensures Due(r, r.queue[k]) {
      assert Due(w, w.queue[k + 1]) && w.queue[k + 1] != fd;
      OtherIsDue(w, fd, w.queue[k + 1]);
      TakeAnswerIsolated(w1, fd, sid, j, io, w.table[w.queue[k + 1]].sid);
      StillDue(w, r, w.queue[k + 1]);
    }
  }

  /** A due notification is handled by target_connection_on_resolve with a finished job. */
  lemma DrainIs(w: World, io: Io)
    requires Inv(w) && w.queue != [] && Due(w, w.queue[0])
    ensures var fd := w.queue[0]; var sid := w.table[fd].sid;
            DrainOne(w, io) == TakeAnswer(w.(queue := w.queue[1..]), fd, sid, w.heap[sid].job.value, io)
  {
    hide Inv, TakeAnswer;
    ResolvingIffWaiting(w, w.table[w.queue[0]].sid);
  }

  /** What the handler of a due notification finds. */
  lemma AnswerIsReady(w: World, y: Sid, j: Jid)
    requires Inv(w) && w.queue != [] && Due(w, w.queue[0]) && w.table[w.queue[0]].sid == y && w.heap[y].job == Some(j)
    ensures var p := Popped(w);
            && Live(p, y) && p.heap[y].job == Some(j) && j in p.jobs && (p.jobs[j].result ==> p.jobs[j].status == 0 && j in p.lists)
            && p.heap[y].addresses.None? && p.heap[y].cursor == [] && p.open == p.table.Keys
  {
    hide Inv, InvExcept, ResolvingView, HistOk;
    ResolvingIffWaiting(w, y);
    ResolvingGood(w, y);
    ResolvingIdle(ViewOf(w, y));
    FinishedJob(w, y, j);
    OpenIsRegistered(w, y);
  }

  /** Different due notifications are for different sessions and jobs. */
  lemma OtherIsDue(w: World, a: Fd, b: Fd)
    requires Inv(w) && Due(w, a) && Due(w, b) && a != b
    ensures a in w.table && b in w.table && w.table[a].sid in w.heap && w.table[b].sid in w.heap
    ensures w.table[a].sid != w.table[b].sid && w.heap[w.table[a].sid].job.Some? && w.heap[w.table[b].sid].job.Some?
    ensures w.heap[w.table[a].sid].job != w.heap[w.table[b].sid].job
    ensures w.heap[w.table[b].sid].job.value in w.jobs && w.heap[w.table[b].sid].job.value !in w.threads
  {
    hide Linkage, Accounts, HistOk, SessionOk, Phase, OwnAnswer;
    assert OwnRequests(w, w.table[a].sid) && OwnRequests(w, w.table[b].sid);
  }

  /** Nothing a waiting session or a due notification depends on changed. */
  lemma SameQueueAwaited(w: World, r: World, j: Jid)
    requires Awaited(w) && j in w.threads && r.queue == w.queue && r.heap == w.heap && r.table == w.table
    requires r.threads.Keys == w.threads.Keys && r.jobs.Keys == w.jobs.Keys && |r.origins| == |w.origins|
    requires forall i | 0 <= i < |w.origins| :: r.origins[i].sid == w.origins[i].sid
    requires forall i | i in w.jobs && i != j :: r.jobs[i] == w.jobs[i]
    ensures Awaited(r)
  {
    forall i | i in r.jobs ensures i < |r.origins| && Waiting(r, i) { assert Waiting(w, i); }
    forall k | 0 <= k < |r.queue| ensures Due(r, r.queue[k]) { assert Due(w, w.queue[k]); }
  }

  /** A thread with a waiting session: it looks up, publishes, and then queues a notification that is due. */
  lemma ThreadKeepsAwaited(w: World, j: Jid, answer: Answer)
    requires Inv(w) && Awaited(w)
    ensures Awaited(ThreadStep(w, j, answer))
  {
    hide Inv, Awaited, FreeJob, FreeList;
    if j in w.threads {
      ThreadHasJob(w, j);
      if w.threads[j].Notify? {
        NotificationIsDue(w, j, ThreadStep(w, j, answer));
      } else {
        SameQueueAwaited(w, ThreadStep(w, j, answer), j);
      }
    }
  }

  /** Its job is there, and it is never told to discard it. */
  lemma ThreadHasJob(w: World, j: Jid)
    requires Inv(w) && Awaited(w) && j in w.threads
    ensures j in w.jobs && j < |w.origins| && !w.threads[j].Discard?
  {
    hide Linkage, Accounts, HistOk, SessionOk, OwnAnswer, OwnRequests;
    assert Phase(w, j) && Waiting(w, j);
  }

  /** Whom a thread is about to notify. */
  lemma NotifiedSession(w: World, j: Jid)
    requires Inv(w) && Awaited(w) && j in w.threads && w.threads[j].Notify?
    ensures var fd := w.threads[j].fd;
            && j in w.jobs && w.jobs[j].done && fd in w.table && w.table[fd].kind == ClientItem && w.table[fd].sid in w.heap
            && w.heap[w.table[fd].sid].clientFd == Some(fd) && w.heap[w.table[fd].sid].job == Some(j)
  {
    hide Accounts, HistOk, SessionOk, OwnAnswer, OwnRequests, Due;
    assert Phase(w, j) && Waiting(w, j) && j in w.jobs;
    assert Anchored(w, w.origins[j].sid);
  }

  lemma NotificationIsDue(w: World, j: Jid, r: World)
    requires Inv(w) && Awaited(w) && j in w.threads && w.threads[j].Notify?
    requires r == w.(queue := [w.threads[j].fd] + w.queue, threads := w.threads - {j})
    ensures Awaited(r)
  {
    hide Inv;
    var fd := w.threads[j].fd;
    NotifiedSession(w, j);
    assert Due(r, fd);
    forall k | 0 <= k < |w.queue| ensures w.queue[k] != fd && Due(r, w.queue[k]) { assert Due(w, w.queue[k]); }
    hide Due;
    forall i | i in r.jobs ensures i < |r.origins| && Waiting(r, i) { assert Waiting(w, i); }
  }

  lemma AcceptKeepsAwaited(w: World, want: Fd)
    requires Inv(w) && Awaited(w)
    ensures Awaited(AcceptClient(w, want))
  {
    hide Inv, Awaited, AcceptClient, Admitting;
    AcceptIs(w, want);
    var fd := FreshFd(w.open, want);
    if fd < FD_LIMIT { AdmittingAwaited(w, fd); }
  }

  lemma AcceptIs(w: World, want: Fd)
    requires Inv(w)
    ensures var fd := FreshFd(w.open, want); AcceptClient(w, want) == if fd < FD_LIMIT then Admitting(w, fd) else w
  {
    hide Resolution, Accounts, HistOk, SessionOk, FreshFd;
    var fd := FreshFd(w.open, want);
    if fd < FD_LIMIT {} else { assert w.open + {fd} - {fd} == w.open; }
  }

  lemma AdmittingAwaited(w: World, fd: Fd)
    requires Inv(w) && Awaited(w) && fd !in w.open
    ensures Awaited(Admitting(w, fd))
  {
    hide Resolution, Accounts, HistOk, SessionOk;
    FreshSid(w);
    assert fd !in w.table;
    var r := Admitting(w, fd);
    forall j | j in r.jobs ensures j < |r.origins| && Waiting(r, j) { assert Waiting(w, j); }
    forall k | 0 <= k < |r.queue| ensures Due(r, r.queue[k]) { assert Due(w, w.queue[k]); }
  }

  // ---------------------------------------------------------------- every run

  lemma StepKeeps(w: World, e: Event)
    requires Inv(w) && Awaited(w)
    ensures Inv(Step(w, e)) && Awaited(Step(w, e))
  {
    hide Inv, Awaited, AcceptClient, Dispatch, DrainOne, ThreadStep;
    match e {
      case Accept(want) =>
        AcceptKeeps(w, want);
        AcceptKeepsAwaited(w, want);
      case Ready(fd, readable, writable, onRead, onWrite) =>
        DispatchKeeps(w, fd, readable, writable, onRead, onWrite);
        var r := Dispatch(w, fd, readable, writable, onRead, onWrite);
        if fd in w.table {
          if w.heap[w.table[fd].sid].job.None? { HandlerKeepsAwaited(w, r, w.table[fd].sid); }
        } else {
          NothingDispatched(w, fd, readable, writable, onRead, onWrite);
        }
      case Drain(io) =>
        DrainKeepsAwaited(w, io);
      case ThreadRuns(j, answer) =>
        ThreadStepKeeps(w, j, answer);
        ThreadKeepsAwaited(w, j, answer);
    }
  }

  lemma NothingDispatched(w: World, fd: Fd, readable: bool, writable: bool, onRead: Io, onWrite: Io)
    requires fd !in w.table
    ensures Dispatch(w, fd, readable, writable, onRead, onWrite) == w
  {
  }

  lemma StartIsFine()
    ensures Inv(START) && Awaited(START)
  {
    assert START.open == START.table.Keys;
  }

  /** The invariant holds in every reachable state. */
  lemma {:induction false} Reachable(events: seq<Event>)
    ensures Inv(Run(START, events)) && Awaited(Run(START, events))
    decreases |events|
  {
    hide Inv, Awaited, Step;
    if events == [] {
      StartIsFine();
    } else {
      Reachable(events[..|events| - 1]);
      StepKeeps(Run(START, events[..|events| - 1]), events[|events| - 1]);
    }
  }
}
