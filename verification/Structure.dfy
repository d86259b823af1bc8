/** The four steps that change who owns what: linking and unlinking a target, starting a lookup, taking its answer. */
module Structure {
  import opened Basics
  import opened Socks5
  import opened Proxy
  import opened Invariant
  import opened Frames
  import opened Teardown
  import opened Local

  /** Register descriptor `fd` as the target of session `sid`. */
  ghost function Attached(w: World, sid: Sid, fd: Fd): World
    requires sid in w.heap
  {
    w.(table := w.table[fd := Item(TargetItem, WRITE, sid)], open := w.open + {fd},
       heap := w.heap[sid := w.heap[sid].(targetFd := Some(fd))])
  }

  lemma AttachedKeepsLinkage(w: World, sid: Sid, fd: Fd)
    requires Linkage(w) && sid in w.heap && w.heap[sid].targetFd.None? && fd !in w.open && fd < FD_LIMIT
    ensures Linkage(Attached(w, sid, fd))
  {
    var w' := Attached(w, sid, fd);
    assert fd !in w.table;
    forall f | f in w'.table ensures Owned(w', f) { assert f != fd ==> Owned(w, f); }
    forall x | x in w'.heap ensures Anchored(w', x) { assert Anchored(w, x); }
  }

  /** Sessions keep their job, their list and their client descriptor, and nothing else about lookups changes. */
  ghost predicate SameLookups(w: World, w': World) {
    && w'.heap.Keys == w.heap.Keys
    && (forall x | x in w.heap :: w'.heap[x].job == w.heap[x].job && w'.heap[x].addresses == w.heap[x].addresses
                                  && w'.heap[x].clientFd == w.heap[x].clientFd)
    && w'.jobs == w.jobs && w'.lists == w.lists && w'.threads == w.threads && w'.queue == w.queue
    && w'.origins == w.origins && w'.hist == w.hist
  }

  lemma SameLookupsKeep(w: World, w': World)
    requires Resolution(w) && SameLookups(w, w')
    ensures Resolution(w')
  {
    forall j | 0 <= j < |w'.origins| ensures Phase(w', j) {
      assert Phase(w, j);
      assert Waiting(w', j) == Waiting(w, j) && Holding(w', j) == Holding(w, j);
    }
    forall x | x in w'.heap ensures OwnRequests(w', x) { assert OwnRequests(w, x); }
    forall x | 0 <= x < |w'.hist| ensures OwnAnswer(w', x) { assert OwnAnswer(w, x); }
  }

  /** Nothing is counted and no other session is concerned. */
  ghost predicate OnlyOwnership(w: World, w': World, sid: Sid) {
    && w'.heap.Keys == w.heap.Keys
    && (forall x | x in w.heap && x != sid :: w'.heap[x] == w.heap[x])
    && (forall fd | fd in w.table && w.table[fd].sid != sid :: fd in w'.table && w'.table[fd] == w.table[fd])
    && w'.hist == w.hist && w'.metrics == w.metrics && w'.active == w.active
    && w'.fault == w.fault && w'.staleErrnoTested == w.staleErrnoTested
  }

  lemma OwnershipKeeps(w: World, w': World, sid: Sid)
    requires InvExcept(w, sid) && OnlyOwnership(w, w', sid) && Linkage(w') && Resolution(w')
    ensures InvExcept(w', sid)
  {
    assert |w'.heap| == |w.heap| by { assert |w.heap| == |w.heap.Keys| && |w'.heap| == |w'.heap.Keys|; }
    OthersKept(w, w', sid);
  }

  lemma AttachedShape(w: World, sid: Sid, fd: Fd)
    requires sid in w.heap && fd !in w.table
    ensures OnlyOwnership(w, Attached(w, sid, fd), sid) && SameLookups(w, Attached(w, sid, fd))
  {
  }

  lemma AttachedKeeps(w: World, sid: Sid, fd: Fd)
    requires InvExcept(w, sid) && sid in w.heap && w.heap[sid].targetFd.None? && fd !in w.open && fd < FD_LIMIT
    ensures InvExcept(Attached(w, sid, fd), sid)
  {
    var w' := Attached(w, sid, fd);
    AttachedKeepsLinkage(w, sid, fd);
    AttachedShape(w, sid, fd);
    SameLookupsKeep(w, w');
    OwnershipKeeps(w, w', sid);
  }

  lemma AttachedView(w: World, sid: Sid, fd: Fd)
    requires Live(w, sid) && w.heap[sid].targetFd.None? && fd !in w.table
    ensures Live(Attached(w, sid, fd), sid)
    ensures var v := ViewOf(w, sid);
            ViewOf(Attached(w, sid, fd), sid) == v.(s := v.s.(targetFd := Some(fd)), target := Some(WRITE))
  {
  }

  /** Unregister and close the target descriptor of session `sid`. */
  ghost function Detached(w: World, sid: Sid): World
    requires sid in w.heap && w.heap[sid].targetFd.Some?
  {
    var t := w.heap[sid].targetFd.value;
    w.(table := w.table - {t}, open := w.open - {t}, heap := w.heap[sid := w.heap[sid].(targetFd := None)])
  }

  lemma DetachedShape(w: World, sid: Sid)
    requires sid in w.heap && w.heap[sid].targetFd.Some?
    requires Registered(w, w.heap[sid].targetFd.value, TargetItem, sid)
    ensures OnlyOwnership(w, Detached(w, sid), sid) && SameLookups(w, Detached(w, sid))
  {
  }

  lemma DetachedKeeps(w: World, sid: Sid)
    requires InvExcept(w, sid) && sid in w.heap && w.heap[sid].targetFd.Some?
    ensures InvExcept(Detached(w, sid), sid)
  {
    var w' := Detached(w, sid);
    assert Registered(w, w.heap[sid].targetFd.value, TargetItem, sid) by { assert Anchored(w, sid); }
    DetachedKeepsLinkage(w, sid);
    DetachedShape(w, sid);
    SameLookupsKeep(w, w');
    OwnershipKeeps(w, w', sid);
  }

  lemma DetachedKeepsLinkage(w: World, sid: Sid)
    requires Linkage(w) && sid in w.heap && w.heap[sid].targetFd.Some?
    ensures Linkage(Detached(w, sid))
  {
    var w' := Detached(w, sid);
    assert Anchored(w, sid);
    forall f | f in w'.table ensures Owned(w', f) { assert Owned(w, f); }
    forall x | x in w'.heap ensures Anchored(w', x) { assert Anchored(w, x); }
  }

  lemma DetachedView(w: World, sid: Sid)
    requires Live(w, sid) && w.heap[sid].targetFd.Some? && w.open == w.table.Keys
    ensures Live(Detached(w, sid), sid)
    ensures var v := ViewOf(w, sid);
            ViewOf(Detached(w, sid), sid) == v.(s := v.s.(targetFd := None), target := None)
    ensures Unregister(w, w.heap[sid].targetFd.value) == Detached(w, sid)
  {
    UnregisterTargetIs(w, sid, w.heap[sid].targetFd.value);
  }

  lemma SameDescriptorsKeep(w: World, w': World)
    requires Linkage(w) && w'.table == w.table && w'.open == w.open && w'.hist == w.hist
    requires w'.heap.Keys == w.heap.Keys
    requires forall x | x in w.heap :: w'.heap[x].clientFd == w.heap[x].clientFd && w'.heap[x].targetFd == w.heap[x].targetFd
    ensures Linkage(w')
  {
    forall f | f in w'.table ensures Owned(w', f) { assert Owned(w, f); }
    forall x | x in w'.heap ensures Anchored(w', x) { assert Anchored(w, x); }
  }

  /** Start the lookup of `name` for session `sid`. */
  ghost function Asked(w: World, sid: Sid, name: seq<byte>, port: nat): World
    requires sid in w.heap && w.heap[sid].clientFd.Some?
  {
    var j := |w.origins|;
    w.(origins := w.origins + [Origin(sid, name, port, None)],
       jobs := w.jobs[j := Job(w.heap[sid].clientFd.value, Some(sid), false, EAI_AGAIN, false)],
       threads := w.threads[j := Lookup],
       heap := w.heap[sid := w.heap[sid].(job := Some(j), stage := Resolving)])
  }

  ghost predicate AsksFor(h: Hist, name: seq<byte>, port: nat) {
    h.request.Some? && h.request.value.atyp == ATYP_DOMAIN && name == CString(h.request.value.address)
    && port == h.request.value.port
  }

  lemma AskedKeepsResolution(w: World, sid: Sid, name: seq<byte>, port: nat)
    requires Resolution(w) && Live(w, sid) && w.heap[sid].job.None? && w.heap[sid].addresses.None?
    requires AsksFor(w.hist[sid], name, port)
    ensures Resolution(Asked(w, sid, name, port))
  {
    var w' := Asked(w, sid, name, port);
    forall j | 0 <= j < |w'.origins| ensures Phase(w', j) {
      if j < |w.origins| {
        assert Phase(w, j) && w'.origins[j] == w.origins[j];
        assert Waiting(w', j) == Waiting(w, j) && Holding(w', j) == Holding(w, j);
      } else {
        assert j !in w.lists;
      }
    }
    forall x | x in w'.heap ensures OwnRequests(w', x) { assert OwnRequests(w, x); }
    forall x | 0 <= x < |w'.hist| ensures OwnAnswer(w', x) { assert OwnAnswer(w, x); }
  }

  lemma AskedShape(w: World, sid: Sid, name: seq<byte>, port: nat)
    requires Live(w, sid) && Linkage(w)
    ensures OnlyOwnership(w, Asked(w, sid, name, port), sid) && Linkage(Asked(w, sid, name, port))
  {
    SameDescriptorsKeep(w, Asked(w, sid, name, port));
  }

  lemma AskedKeeps(w: World, sid: Sid, name: seq<byte>, port: nat)
    requires InvExcept(w, sid) && Live(w, sid) && w.heap[sid].job.None? && w.heap[sid].addresses.None?
    requires AsksFor(w.hist[sid], name, port)
    ensures InvExcept(Asked(w, sid, name, port), sid)
  {
    AskedKeepsResolution(w, sid, name, port);
    AskedShape(w, sid, name, port);
    OwnershipKeeps(w, Asked(w, sid, name, port), sid);
  }

  /** Take the answer of the finished job of session `sid`: the job is freed, its list changes hands. */
  ghost function Taken(w: World, sid: Sid): World
    requires sid in w.heap && w.heap[sid].job.Some? && w.heap[sid].job.value in w.jobs
  {
    var j := w.heap[sid].job.value;
    w.(jobs := w.jobs - {j},
       heap := w.heap[sid := if w.jobs[j].result
                             then w.heap[sid].(job := None, addresses := Some(j), cursor := if j in w.lists then w.lists[j] else [])
                             else w.heap[sid].(job := None)])
  }

  lemma TakenPhase(w: World, sid: Sid, j: Jid)
    requires Resolution(w) && Live(w, sid) && w.heap[sid].job.Some? && w.heap[sid].job.value in w.jobs
    requires w.jobs[w.heap[sid].job.value].done && j < |w.origins|
    ensures Phase(Taken(w, sid), j)
  {
    hide OwnAnswer;
    var w' := Taken(w, sid);
    var j0 := w.heap[sid].job.value;
    assert OwnRequests(w, sid) && Phase(w, j0) && Waiting(w, j0);
    assert Phase(w, j);
    if j != j0 { assert Waiting(w', j) == Waiting(w, j) && Holding(w', j) == Holding(w, j); }
  }

  lemma TakenOwn(w: World, sid: Sid, x: Sid)
    requires Resolution(w) && Live(w, sid) && w.heap[sid].job.Some? && w.heap[sid].job.value in w.jobs
    requires w.jobs[w.heap[sid].job.value].done && x in w.heap
    ensures OwnRequests(Taken(w, sid), x)
  {
    hide OwnAnswer;
    assert OwnRequests(w, sid) && OwnRequests(w, x) && Phase(w, w.heap[sid].job.value);
  }

  lemma TakenKeepsResolution(w: World, sid: Sid)
    requires Resolution(w) && Live(w, sid) && w.heap[sid].job.Some? && w.heap[sid].job.value in w.jobs
    requires w.jobs[w.heap[sid].job.value].done
    ensures Resolution(Taken(w, sid))
  {
    hide Phase, OwnRequests;
    var w' := Taken(w, sid);
    forall j | 0 <= j < |w'.origins| ensures Phase(w', j) { TakenPhase(w, sid, j); }
    forall x | x in w'.heap ensures OwnRequests(w', x) { TakenOwn(w, sid, x); }
    forall x | 0 <= x < |w'.hist| ensures OwnAnswer(w', x) { assert OwnAnswer(w, x); }
  }

  lemma TakenShape(w: World, sid: Sid)
    requires Live(w, sid) && Linkage(w) && w.heap[sid].job.Some? && w.heap[sid].job.value in w.jobs
    ensures OnlyOwnership(w, Taken(w, sid), sid) && Linkage(Taken(w, sid))
  {
    SameDescriptorsKeep(w, Taken(w, sid));
  }

  lemma TakenKeeps(w: World, sid: Sid)
    requires InvExcept(w, sid) && Live(w, sid) && w.heap[sid].job.Some? && w.heap[sid].job.value in w.jobs
    requires w.jobs[w.heap[sid].job.value].done
    ensures InvExcept(Taken(w, sid), sid)
  {
    TakenKeepsResolution(w, sid);
    TakenShape(w, sid);
    OwnershipKeeps(w, Taken(w, sid), sid);
  }
}
