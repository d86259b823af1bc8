/** How a session ends: the re-entrant unregistration closes both descriptors, frees the session, its job and
    its list once, and leaves every other session as it was. */
module Teardown {
  import opened Basics
  import opened Proxy
  import opened Invariant
  import opened Frames

  /** Descriptors held by a session. */
  ghost function Descriptors(s: Session): set<Fd> {
    (if s.clientFd.Some? then {s.clientFd.value} else {}) + (if s.targetFd.Some? then {s.targetFd.value} else {})
  }

  ghost predicate JobDone(w: World, s: Session) {
    s.job.Some? && s.job.value in w.jobs && w.jobs[s.job.value].done
  }

  /** Jobs freed with a session: its own, when the thread is through with it. */
  ghost function FreedJobs(w: World, s: Session): set<Jid> {
    if JobDone(w, s) then {s.job.value} else {}
  }

  ghost function JobLists(w: World, s: Session): set<Jid> {
    if JobDone(w, s) && w.jobs[s.job.value].result then {s.job.value} else {}
  }

  ghost function HeldLists(s: Session): set<Jid> {
    if s.addresses.Some? then {s.addresses.value} else {}
  }

  ghost function Unlisted(s: Session): Session {
    if s.addresses.Some? then s.(addresses := None, cursor := []) else s
  }

  /** Lists freed with a session: the one it holds, or the one its finished job still carries. */
  ghost function FreedLists(w: World, s: Session): set<Jid> {
    JobLists(w, s) + HeldLists(s)
  }

  ghost function OrphanedJobs(w: World, s: Session): map<Jid, Job> {
    if s.job.Some? && s.job.value in w.jobs && !w.jobs[s.job.value].done
    then w.jobs[s.job.value := w.jobs[s.job.value].(state := None)]
    else w.jobs - FreedJobs(w, s)
  }

  /** The world without session `sid` and without anything only it owned. */
  ghost function Without(w: World, sid: Sid): World
    requires sid in w.heap
  {
    var s := w.heap[sid];
    w.(table := w.table - Descriptors(s), open := w.open - Descriptors(s), heap := w.heap - {sid},
       jobs := OrphanedJobs(w, s), lists := w.lists - FreedLists(w, s),
       metrics := CountedOut(w.metrics),
       active := w.active - 1)
  }

  /** Detaching the resolver frees the job and its list if the thread is through, and orphans the job otherwise. */
  lemma DetachIs(w: World, sid: Sid)
    requires sid in w.heap
    requires w.heap[sid].job.Some? ==> w.heap[sid].job.value in w.jobs
    requires JobDone(w, w.heap[sid]) && w.jobs[w.heap[sid].job.value].result ==> w.heap[sid].job.value in w.lists
    ensures var s := w.heap[sid];
            DetachResolver(w, sid) == w.(heap := w.heap[sid := s.(job := None)], jobs := OrphanedJobs(w, s),
                                         lists := w.lists - JobLists(w, s))
  {
    var s := w.heap[sid];
    if s.job.Some? {
      var j := s.job.value;
      assert w.jobs[j := w.jobs[j].(state := None)] - {j} == w.jobs - {j};
      assert w.lists - {} == w.lists;
    } else {
      assert w.jobs - {} == w.jobs && w.lists - {} == w.lists && w.heap[sid := s] == w.heap;
    }
  }

  /** Freeing the addresses frees the list the session holds. */
  lemma FreeAddressesIs(w: World, sid: Sid)
    requires sid in w.heap
    requires w.heap[sid].addresses.Some? ==> w.heap[sid].addresses.value in w.lists
    ensures var s := w.heap[sid];
            FreeAddresses(w, sid) == w.(heap := w.heap[sid := Unlisted(s)], lists := w.lists - HeldLists(s))
  {
    var s := w.heap[sid];
    if s.addresses.None? {
      assert w.lists - {} == w.lists && w.heap[sid := s] == w.heap;
    }
  }

  /** Unregistering the target item from within client_close: the descriptor goes, the session stays. */
  lemma UnregisterTargetIs(w: World, sid: Sid, t: Fd)
    requires sid in w.heap && Registered(w, t, TargetItem, sid) && t in w.open
    ensures var s := w.heap[sid];
            Unregister(w, t) == w.(table := w.table - {t}, open := w.open - {t},
                                   heap := if s.targetFd == Some(t) then w.heap[sid := s.(targetFd := None)] else w.heap)
  {
  }

  /** The tail of client_close: release the job and the list, then free the session and close the descriptor. */
  lemma ReleaseIs(w: World, sid: Sid)
    requires sid in w.heap && OwnRequests(w, sid)
    requires JobDone(w, w.heap[sid]) && w.jobs[w.heap[sid].job.value].result ==> w.heap[sid].job.value in w.lists
    ensures var s := w.heap[sid];
            FreeAddresses(DetachResolver(w, sid), sid)
            == w.(heap := w.heap[sid := Unlisted(s.(job := None))], jobs := OrphanedJobs(w, s),
                  lists := w.lists - FreedLists(w, s))
  {
    var s := w.heap[sid];
    DetachIs(w, sid);
    var d := DetachResolver(w, sid);
    FreeAddressesIs(d, sid);
    assert w.lists - JobLists(w, s) - HeldLists(s) == w.lists - FreedLists(w, s);
    assert d.heap[sid := Unlisted(s.(job := None))] == w.heap[sid := Unlisted(s.(job := None))];
  }

  /** The part of client_close that unlinks the target. */
  lemma UnlinkIs(w: World, sid: Sid)
    requires sid in w.heap && Anchored(w, sid) && w.open == w.table.Keys
    ensures var s := w.heap[sid]; var bare := s.(clientFd := None, targetFd := None);
            var w1 := Put(w, sid, bare);
            var t := if s.targetFd.Some? then {s.targetFd.value} else {};
            && (s.targetFd.Some? ==> s.targetFd.value in w1.table)
            && (if s.targetFd.None? then w1 else Unregister(w1, s.targetFd.value))
               == w1.(table := w.table - t, open := w.open - t)
  {
    var s := w.heap[sid];
    var w1 := Put(w, sid, s.(clientFd := None, targetFd := None));
    if s.targetFd.Some? {
      UnregisterTargetIs(w1, sid, s.targetFd.value);
    } else {
      assert w.table - {} == w.table && w.open - {} == w.open;
    }
  }

  /** client_close, entered with or without `clientFd` already cleared, amounts to `Without`. */
  lemma ClientCloseIs(w: World, sid: Sid, c: Fd, w0: World)
    requires sid in w.heap && Linkage(w) && Resolution(w)
    requires w.heap[sid].clientFd == Some(c)
    requires w0 == w || w0 == Put(w, sid, w.heap[sid].(clientFd := None))
    ensures Unregister(w0, c) == Without(w, sid)
  {
    var s := w.heap[sid];
    assert Anchored(w, sid) && OwnRequests(w, sid);
    assert forall fd | fd in w.table && w.table[fd].sid == sid :: Owned(w, fd);
    if s.job.Some? { assert Phase(w, s.job.value); }
    ClosingIs(w, sid, c, w0);
  }

  ghost function CountedOut(m: Metrics): Metrics {
    m.(concurrent := if m.concurrent > 0 then m.concurrent - 1 else 0)
  }

  lemma DropIs(w: World, sid: Sid, c: Fd)
    requires sid in w.heap && c in w.open
    requires forall fd | fd in w.table && fd != c :: w.table[fd].sid != sid
    ensures DropSession(w, c, sid)
            == w.(heap := w.heap - {sid}, open := w.open - {c}, active := w.active - 1, metrics := CountedOut(w.metrics))
  {
  }

  lemma FinishIs(w: World, sid: Sid, c: Fd)
    requires sid in w.heap && OwnRequests(w, sid) && c in w.open
    requires forall fd | fd in w.table && fd != c :: w.table[fd].sid != sid
    requires JobDone(w, w.heap[sid]) && w.jobs[w.heap[sid].job.value].result ==> w.heap[sid].job.value in w.lists
    ensures var s := w.heap[sid];
            FinishClose(w, c, sid)
            == w.(heap := w.heap - {sid}, jobs := OrphanedJobs(w, s), lists := w.lists - FreedLists(w, s),
                  open := w.open - {c}, active := w.active - 1, metrics := CountedOut(w.metrics))
  {
    var s := w.heap[sid];
    ReleaseIs(w, sid);
    var w1 := w.(heap := w.heap[sid := Unlisted(s.(job := None))], jobs := OrphanedJobs(w, s),
                 lists := w.lists - FreedLists(w, s));
    DropIs(w1, sid, c);
    assert w1.heap - {sid} == w.heap - {sid};
  }

  /** The world in which only FinishClose is left to do. */
  ghost function Unlinked(w: World, sid: Sid): World
    requires sid in w.heap
  {
    var s := w.heap[sid];
    var t := if s.targetFd.Some? then {s.targetFd.value} else {};
    Put(w, sid, s.(clientFd := None, targetFd := None)).(table := w.table - t, open := w.open - t)
  }

  lemma ClientCloseUnlinks(w: World, sid: Sid, c: Fd, w0: World)
    requires sid in w.heap && Anchored(w, sid) && w.open == w.table.Keys
    requires w.heap[sid].clientFd == Some(c)
    requires w0 == w || w0 == Put(w, sid, w.heap[sid].(clientFd := None))
    ensures UnlinkTarget(w0, c, sid) == Unlinked(w, sid)
  {
    var s := w.heap[sid];
    var bare := s.(clientFd := None, targetFd := None);
    assert Put(w0, sid, bare) == Put(w, sid, bare) by { assert w0.heap[sid := bare] == w.heap[sid := bare]; }
    UnlinkIs(w, sid);
  }

  /** The same with the facts it needs spelt out. */
  lemma ClosingIs(w: World, sid: Sid, c: Fd, w0: World)
    requires sid in w.heap && Anchored(w, sid) && OwnRequests(w, sid) && w.open == w.table.Keys
    requires w.heap[sid].clientFd == Some(c)
    requires forall fd | fd in w.table && w.table[fd].sid == sid :: fd in Descriptors(w.heap[sid])
    requires JobDone(w, w.heap[sid]) && w.jobs[w.heap[sid].job.value].result ==> w.heap[sid].job.value in w.lists
    requires w0 == w || w0 == Put(w, sid, w.heap[sid].(clientFd := None))
    ensures Unregister(w0, c) == Without(w, sid)
  {
    ClientCloseUnlinks(w, sid, c, w0);
    UnlinkedFinishes(w, sid, c);
  }

  lemma UnlinkedFinishes(w: World, sid: Sid, c: Fd)
    requires sid in w.heap && Anchored(w, sid) && OwnRequests(w, sid) && w.open == w.table.Keys
    requires w.heap[sid].clientFd == Some(c)
    requires forall fd | fd in w.table && w.table[fd].sid == sid :: fd in Descriptors(w.heap[sid])
    requires JobDone(w, w.heap[sid]) && w.jobs[w.heap[sid].job.value].result ==> w.heap[sid].job.value in w.lists
    ensures var r := FinishClose(Unlinked(w, sid), c, sid);
            c in r.table && r.(table := r.table - {c}) == Without(w, sid)
  {
    hide FinishClose;
    FinishIs(Unlinked(w, sid), sid, c);
    Assemble(w, sid, c, FinishClose(Unlinked(w, sid), c, sid));
  }

  lemma Assemble(w: World, sid: Sid, c: Fd, r: World)
    requires sid in w.heap && w.heap[sid].clientFd == Some(c) && Anchored(w, sid)
    requires var u := Unlinked(w, sid); var s := u.heap[sid];
             r == u.(heap := u.heap - {sid}, jobs := OrphanedJobs(u, s), lists := u.lists - FreedLists(u, s),
                     open := u.open - {c}, active := u.active - 1, metrics := CountedOut(u.metrics))
    ensures c in r.table && r.(table := r.table - {c}) == Without(w, sid)
  {
    var s := w.heap[sid];
    var u := Unlinked(w, sid);
    assert c in w.table && s.targetFd != Some(c);
    assert OrphanedJobs(u, u.heap[sid]) == OrphanedJobs(w, s) && FreedLists(u, u.heap[sid]) == FreedLists(w, s);
    hide Registered, Anchored, OrphanedJobs, FreedLists, CountedOut;
    var t := if s.targetFd.Some? then {s.targetFd.value} else {};
    assert Unlinked(w, sid).heap - {sid} == w.heap - {sid};
    assert w.table - t - {c} == w.table - Descriptors(s);
    assert w.open - t - {c} == w.open - Descriptors(s);
  }

  lemma {:induction false} CardinalityAfterRemoval<K, V>(m: map<K, V>, k: K)
    requires k in m
    ensures |m - {k}| == |m| - 1
  {
    assert (m - {k}).Keys == m.Keys - {k};
  }

  lemma WithoutKeepsLinkage(w: World, sid: Sid)
    requires sid in w.heap && Linkage(w)
    ensures Linkage(Without(w, sid))
  {
    var w' := Without(w, sid);
    assert Anchored(w, sid);
    forall fd | fd in w'.table ensures Owned(w', fd) { assert Owned(w, fd); }
    forall x | x in w'.heap ensures Anchored(w', x) {
      assert Anchored(w, x);
    }
    assert w'.open == w'.table.Keys;
  }

  lemma WithoutKeepsResolution(w: World, sid: Sid)
    requires sid in w.heap && Resolution(w)
    ensures Resolution(Without(w, sid))
  {
    var w' := Without(w, sid);
    var s := w.heap[sid];
    assert OwnRequests(w, sid);
    forall j | 0 <= j < |w'.origins| ensures Phase(w', j) {
      assert Phase(w, j);
      if w.origins[j].sid != sid {
        assert s.job != Some(j) && s.addresses != Some(j);
      }
    }
    forall x | x in w'.heap ensures OwnRequests(w', x) {
      assert OwnRequests(w, x);
    }
    forall x | 0 <= x < |w'.hist| ensures OwnAnswer(w', x) { assert OwnAnswer(w, x); }
  }

  lemma WithoutKeepsAccounts(w: World, sid: Sid)
    requires sid in w.heap && Accounts(w)
    ensures Accounts(Without(w, sid))
  {
    CardinalityAfterRemoval(w.heap, sid);
    var w' := Without(w, sid);
    forall t ensures Meter(w'.metrics, t) == Sum(w'.hist, t) { assert Meter(w.metrics, t) == Sum(w.hist, t); }
  }

  lemma WithoutKeepsCore(w: World, sid: Sid)
    requires sid in w.heap && Core(w)
    ensures Core(Without(w, sid))
  {
    hide Linkage, Resolution, Accounts, HistOk;
    WithoutKeepsLinkage(w, sid);
    WithoutKeepsResolution(w, sid);
    WithoutKeepsAccounts(w, sid);
  }

  /** Nothing of the other sessions goes. */
  lemma WithoutShape(w: World, sid: Sid)
    requires sid in w.heap && Linkage(w)
    ensures var w' := Without(w, sid);
            && (forall x | x in w'.heap :: x in w.heap && x != sid && w'.heap[x] == w.heap[x])
            && (forall fd | fd in w.table && w.table[fd].sid != sid :: fd in w'.table && w'.table[fd] == w.table[fd])
            && w'.hist == w.hist
  {
    assert Anchored(w, sid);
    forall fd | fd in w.table && w.table[fd].sid != sid ensures fd in Without(w, sid).table { assert Owned(w, fd); }
  }

  /** Ending session `sid` leaves the invariant of all the others. */
  lemma WithoutKeepsInv(w: World, sid: Sid)
    requires sid in w.heap && InvExcept(w, sid)
    ensures Inv(Without(w, sid))
  {
    hide Without, Resolution, Accounts, HistOk, SessionOk, Linkage;
    WithoutKeepsCore(w, sid);
    WithoutShape(w, sid);
    OthersKept(w, Without(w, sid), sid);
  }

  /** client_session_close_connection ends the session. */
  lemma CloseConnectionEnds(w: World, sid: Sid)
    requires sid in w.heap && InvExcept(w, sid)
    ensures CloseConnection(w, sid) == Without(w, sid) && Inv(CloseConnection(w, sid))
  {
    assert Anchored(w, sid);
    ClientCloseIs(w, sid, w.heap[sid].clientFd.value, Put(w, sid, w.heap[sid].(clientFd := None)));
    WithoutKeepsInv(w, sid);
  }

  /** Unregistering the client descriptor ends the session. */
  lemma UnregisterClientEnds(w: World, sid: Sid)
    requires sid in w.heap && InvExcept(w, sid)
    ensures w.heap[sid].clientFd.Some?
    ensures var r := Unregister(w, w.heap[sid].clientFd.value); r == Without(w, sid) && Inv(r)
  {
    assert Anchored(w, sid);
    ClientCloseIs(w, sid, w.heap[sid].clientFd.value, w);
    WithoutKeepsInv(w, sid);
  }
}
