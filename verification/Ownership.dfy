/** Who owns what, in every run and while the server winds down after it: descriptors, sessions, resolver jobs and
    address lists. Each statement is about any events, any order of unregistering, and any interleaving of the resolver
    threads with both. */
module Ownership {
  import opened Basics
  import opened Proxy
  import opened Invariant
  import opened Teardown
  import opened Events
  import opened Shutdown

  // ---------------------------------------------------------------- nothing is used after it is gone

  /** Nothing ever touches a freed session, job or list, frees one twice, closes a descriptor twice, frees a session
      that a registration still points to, calls a handler that does not exist, or tests a stale errno. */
  lemma NothingIsTouchedAfterItIsGone(events: seq<Event>, steps: seq<Winding>)
    ensures !Reached(events, steps).fault && !Reached(events, steps).staleErrnoTested
  {
    hide Reached;
    ReachedCore(events, steps);
  }

  // ---------------------------------------------------------------- descriptors

  /** Open descriptors are exactly the registered ones; each belongs to one live session, in one role. */
  lemma DescriptorsAreOwned(events: seq<Event>, steps: seq<Winding>, fd: Fd)
    ensures var w := Reached(events, steps);
            && (fd in w.open <==> fd in w.table)
            && (fd in w.open <==> exists sid | sid in w.heap :: fd in Descriptors(w.heap[sid]))
            && (fd in w.table ==> fd < FD_LIMIT && w.table[fd].sid in w.heap
                                  && fd in Descriptors(w.heap[w.table[fd].sid])
                                  && forall sid | sid in w.heap && fd in Descriptors(w.heap[sid]) :: sid == w.table[fd].sid)
  {
    hide Reached, Resolution, Accounts, HistOk;
    ReachedCore(events, steps);
    var w := Reached(events, steps);
    if fd in w.table {
      assert Owned(w, fd);
      assert w.table[fd].sid in w.heap;
    }
    forall sid | sid in w.heap && fd in Descriptors(w.heap[sid])
      ensures fd in w.table && w.table[fd].sid == sid
    {
      assert Anchored(w, sid);
    }
  }

  // ---------------------------------------------------------------- jobs and lists

  /** Session `sid` holds job `j`, which its thread has finished with. */
  ghost predicate SessionOwnsJob(w: World, j: Jid, sid: Sid) {
    sid in w.heap && w.heap[sid].job == Some(j) && j in w.jobs && w.jobs[j].done
  }

  /** The thread will use job `j` again: to publish in it, or to free it. */
  ghost predicate ThreadOwnsJob(w: World, j: Jid) {
    j in w.threads && !w.threads[j].Notify?
  }

  /** Every allocated resolver job has exactly one owner: its thread, or the one session waiting for its result.
      Whoever owns it owns an allocated job. A thread that goes on to free the job is one whose session is gone. */
  lemma JobsHaveOneOwner(events: seq<Event>, steps: seq<Winding>, j: Jid)
    ensures var w := Reached(events, steps);
            && (j in w.jobs <==> ThreadOwnsJob(w, j) || exists sid :: SessionOwnsJob(w, j, sid))
            && !(ThreadOwnsJob(w, j) && exists sid :: SessionOwnsJob(w, j, sid))
            && (forall a, b | SessionOwnsJob(w, j, a) && SessionOwnsJob(w, j, b) :: a == b)
            && (j in w.threads && w.threads[j].Discard? ==> forall sid | sid in w.heap :: w.heap[sid].job != Some(j))
  {
    hide Reached, Linkage, Accounts, HistOk;
    ReachedCore(events, steps);
    var w := Reached(events, steps);
    forall sid | sid in w.heap && w.heap[sid].job == Some(j) ensures j < |w.origins| && sid == w.origins[j].sid {
      assert OwnRequests(w, sid);
    }
    if j < |w.origins| {
      assert Phase(w, j);
      if j in w.jobs && w.jobs[j].done && Waiting(w, j) {
        assert SessionOwnsJob(w, j, w.origins[j].sid);
      }
    }
  }

  ghost predicate ThreadHoldsList(w: World, l: Jid) {
    l in w.threads && ((w.threads[l].Publish? && w.threads[l].result) || (w.threads[l].Discard? && w.threads[l].result))
  }

  ghost predicate JobHoldsList(w: World, l: Jid) {
    l in w.jobs && w.jobs[l].done && w.jobs[l].result && w.jobs[l].state.Some?
  }

  ghost predicate SessionHoldsList(w: World, l: Jid, sid: Sid) {
    sid in w.heap && w.heap[sid].addresses == Some(l)
  }

  /** Every allocated address list has exactly one holder: the thread that looked it up, the job it was published
      in, or the one session that took it. */
  lemma ListsHaveOneHolder(events: seq<Event>, steps: seq<Winding>, l: Jid)
    ensures var w := Reached(events, steps);
            var session := exists sid :: SessionHoldsList(w, l, sid);
            && (l in w.lists <==> ThreadHoldsList(w, l) || JobHoldsList(w, l) || session)
            && !(ThreadHoldsList(w, l) && JobHoldsList(w, l)) && !(ThreadHoldsList(w, l) && session)
            && !(JobHoldsList(w, l) && session)
            && (forall a, b | SessionHoldsList(w, l, a) && SessionHoldsList(w, l, b) :: a == b)
  {
    hide Reached, Linkage, Accounts, HistOk;
    ReachedCore(events, steps);
    var w := Reached(events, steps);
    forall sid | SessionHoldsList(w, l, sid) ensures l < |w.origins| && sid == w.origins[l].sid { assert OwnRequests(w, sid); }
    if l < |w.origins| {
      assert Phase(w, l);
      if Holding(w, l) { assert SessionHoldsList(w, l, w.origins[l].sid); }
    }
  }

  /** Freed exactly once: when the session that asked is gone and the thread has ended, neither job nor list is left,
      whoever of the two came last. */
  lemma FinishedLookupsAreFreed(events: seq<Event>, steps: seq<Winding>, j: Jid)
    ensures var w := Reached(events, steps);
            j < |w.origins| && w.origins[j].sid !in w.heap && j !in w.threads ==> j !in w.jobs && j !in w.lists
  {
    hide Reached, Linkage, Accounts, HistOk;
    ReachedCore(events, steps);
    var w := Reached(events, steps);
    if j < |w.origins| { assert Phase(w, j); }
  }

  /** When all sessions are closed and all threads have ended, nothing is left allocated or open. */
  lemma NothingLeaks(events: seq<Event>, steps: seq<Winding>)
    ensures var w := Reached(events, steps);
            w.heap == map[] && w.threads == map[] ==>
              w.open == {} && w.table == map[] && w.jobs == map[] && w.lists == map[]
  {
    hide Reached, HistOk, Accounts;
    ReachedCore(events, steps);
    var w := Reached(events, steps);
    forall fd | fd in w.table ensures w.table[fd].sid in w.heap { assert Owned(w, fd); }
    forall j | j in w.jobs || j in w.lists ensures j < |w.origins| && (j in w.threads || w.origins[j].sid in w.heap) {
      assert Phase(w, j);
    }
  }

  // ---------------------------------------------------------------- shutting down

  /** The orderly shutdown waits for the count of sessions to reach zero. When it is zero, in any run, there is nothing to
      wait for: no descriptor, job, list, thread or notification. */
  lemma IdleServerHoldsNothing(events: seq<Event>)
    ensures var w := Run(START, events);
            w.active == 0 ==>
              && w.heap == map[] && w.open == {} && w.table == map[] && w.jobs == map[] && w.lists == map[]
              && w.threads == map[] && w.queue == []
  {
    hide Run, Linkage, Resolution, HistOk, SessionOk;
    Reachable(events);
    var w := Run(START, events);
    AwaitedBySomebody(w);
    NothingLeaks(events, []);
    assert Reached(events, []) == w;
    if w.active == 0 { assert w.heap == map[]; }
  }

  lemma AwaitedBySomebody(w: World)
    requires Awaited(w)
    ensures forall j | j in w.jobs :: w.heap != map[]
    ensures forall j | j in w.threads :: j in w.jobs
    ensures w.queue != [] ==> w.heap != map[]
  {
    forall j | j in w.jobs ensures w.heap != map[] { assert Waiting(w, j); }
    if w.queue != [] { assert Due(w, w.queue[0]); }
  }

  lemma SessionsAreRegistered(w: World)
    requires Linkage(w)
    ensures w.open == w.table.Keys
    ensures forall sid | sid in w.heap :: w.heap[sid].clientFd.Some? && w.heap[sid].clientFd.value in w.table
  {
    forall sid | sid in w.heap ensures w.heap[sid].clientFd.Some? && w.heap[sid].clientFd.value in w.table {
      assert Anchored(w, sid);
    }
  }

  lemma EmptyTable(w: World)
    requires Core(w) && w.table == map[]
    ensures !w.fault && w.heap == map[] && w.open == {} && w.active == 0 && w.metrics.concurrent == 0
  {
    hide HistOk, Linkage, Resolution;
    SessionsAreRegistered(w);
    assert w.heap == map[];
  }

  lemma OnlyThreadsOwn(w: World)
    requires Core(w) && w.heap == map[]
    ensures (forall j | j in w.jobs :: ThreadOwnsJob(w, j)) && (forall l | l in w.lists :: ThreadHoldsList(w, l))
  {
    hide HistOk, Linkage, Accounts;
    forall j | j in w.jobs || j in w.lists
      ensures (j in w.jobs ==> ThreadOwnsJob(w, j)) && (j in w.lists ==> ThreadHoldsList(w, j))
    {
      assert Phase(w, j);
    }
  }

  /** From any reachable state, unregistering all descriptors in any order, with the close handlers re-entering the
      selector and the resolver threads running in between, frees every session once and closes every descriptor once.
      No session is counted any more, and only threads own anything. */
  lemma ShutdownReleasesSessions(events: seq<Event>, steps: seq<Winding>)
    requires forall fd | fd in Run(START, events).table :: Unregisters(fd) in steps
    ensures var w := Reached(events, steps);
            && !w.fault && w.heap == map[] && w.table == map[] && w.open == {} && w.active == 0 && w.metrics.concurrent == 0
            && (forall j | j in w.jobs :: ThreadOwnsJob(w, j)) && (forall l | l in w.lists :: ThreadHoldsList(w, l))
  {
    hide Run, WindDown, Core, SessionOk, Awaited;
    Reachable(events);
    InvHasCore(Run(START, events));
    WindDownKeepsCore(Run(START, events), steps);
    var w := Reached(events, steps);
    assert w.table == map[] by { assert forall fd | fd in w.table :: fd in Run(START, events).table; }
    EmptyTable(w);
    OnlyThreadsOwn(w);
  }

  /** And once every thread has had the turns it needs, at most three, nothing at all is left, however the turns came
      between the unregistrations. */
  lemma ShutdownReleasesEverything(events: seq<Event>, steps: seq<Winding>)
    requires forall fd | fd in Run(START, events).table :: Unregisters(fd) in steps
    requires forall j | j in Run(START, events).threads :: Turns(steps, j) >= StepsLeft(Run(START, events), j)
    ensures var w := Reached(events, steps);
            && !w.fault && w.heap == map[] && w.table == map[] && w.open == {}
            && w.threads == map[] && w.jobs == map[] && w.lists == map[]
  {
    hide Run, WindDown, Core, SessionOk, Awaited, Turns;
    ShutdownReleasesSessions(events, steps);
    NothingLeaks(events, steps);
    Reachable(events);
    InvHasCore(Run(START, events));
    var w := Reached(events, steps);
    forall j ensures j !in w.threads { TurnsCount(Run(START, events), steps, j); }
  }
}
