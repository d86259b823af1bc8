/** How one session's step affects everything else: the structural steps that the handlers are made of. */
module Frames {
  import opened Proxy
  import opened Invariant

  lemma {:induction false} SumUpdate(hist: seq<Hist>, i: nat, h: Hist, t: Tally)
    requires i < |hist|
    ensures Sum(hist[i := h], t) == Sum(hist, t) - Amount(hist[i], t) + Amount(h, t)
  {
    var last := |hist| - 1;
    if i == last {
      assert hist[i := h][..last] == hist[..last];
    } else {
      assert hist[i := h][..last] == hist[..last][i := h];
      SumUpdate(hist[..last], i, h, t);
    }
  }

  /** Only session `sid` changed: its record, its history, its interests and the meters. Its descriptors, its job
      and its list stayed. */
  ghost predicate Touch(w: World, w': World, sid: Sid) {
    && sid in w.heap && w'.heap.Keys == w.heap.Keys
    && (forall x | x in w.heap && x != sid :: w'.heap[x] == w.heap[x])
    && Kept(w.heap[sid], w'.heap[sid])
    && w'.table.Keys == w.table.Keys
    && (forall fd | fd in w.table :: w'.table[fd].kind == w.table[fd].kind && w'.table[fd].sid == w.table[fd].sid)
    && (forall fd | fd in w.table && w.table[fd].sid != sid :: w'.table[fd] == w.table[fd])
    && |w'.hist| == |w.hist| && (forall x | 0 <= x < |w.hist| && x != sid :: w'.hist[x] == w.hist[x])
    && w'.metrics.concurrent == w.metrics.concurrent && w'.metrics.historical == w.metrics.historical
    && w' == w.(heap := w'.heap, table := w'.table, hist := w'.hist, metrics := w'.metrics)
  }

  ghost predicate Kept(s: Session, s': Session) {
    s'.clientFd == s.clientFd && s'.targetFd == s.targetFd && s'.job == s.job && s'.addresses == s.addresses
  }

  /** The meters moved exactly as the history of `sid` did. */
  ghost predicate MetersFollow(w: World, w': World, sid: Sid)
    requires sid < |w.hist| && |w'.hist| == |w.hist|
  {
    forall t :: Meter(w'.metrics, t) == Meter(w.metrics, t) - Amount(w.hist[sid], t) + Amount(w'.hist[sid], t)
  }

  lemma MetersKept(w: World, w': World, sid: Sid)
    requires sid < |w.hist| && |w'.hist| == |w.hist|
    requires forall x | 0 <= x < |w.hist| && x != sid :: w'.hist[x] == w.hist[x]
    requires MetersFollow(w, w', sid)
    requires forall t :: Meter(w.metrics, t) == Sum(w.hist, t)
    ensures forall t :: Meter(w'.metrics, t) == Sum(w'.hist, t)
  {
    assert w'.hist == w.hist[sid := w'.hist[sid]];
    forall t ensures Meter(w'.metrics, t) == Sum(w'.hist, t) {
      SumUpdate(w.hist, sid, w'.hist[sid], t);
    }
  }

  lemma TouchKeepsLinkage(w: World, w': World, sid: Sid)
    requires Linkage(w) && Touch(w, w', sid)
    ensures Linkage(w')
  {
    forall fd | fd in w'.table ensures Owned(w', fd) { assert Owned(w, fd); }
    forall x | x in w'.heap ensures Anchored(w', x) { assert Anchored(w, x); }
  }

  lemma TouchKeepsResolution(w: World, w': World, sid: Sid)
    requires Resolution(w) && Touch(w, w', sid)
    requires sid < |w'.hist| ==> OwnAnswer(w', sid)
    ensures Resolution(w')
  {
    forall j | 0 <= j < |w'.origins| ensures Phase(w', j) {
      assert Phase(w, j);
      assert Waiting(w', j) == Waiting(w, j) && Holding(w', j) == Holding(w, j);
    }
    forall x | x in w'.heap ensures OwnRequests(w', x) { assert OwnRequests(w, x); }
    forall x | 0 <= x < |w'.hist| ensures OwnAnswer(w', x) { assert OwnAnswer(w, x); }
  }

  lemma SidIsKnown(w: World, sid: Sid)
    requires Linkage(w) && sid in w.heap
    ensures sid < |w.hist|
  {
    assert Anchored(w, sid);
  }

  lemma TouchKeepsAccounts(w: World, w': World, sid: Sid)
    requires Accounts(w) && Touch(w, w', sid) && sid < |w.hist| && MetersFollow(w, w', sid)
    ensures Accounts(w')
  {
    MetersKept(w, w', sid);
    assert |w'.heap| == |w'.heap.Keys| && |w.heap| == |w.heap.Keys|;
  }

  /** Sessions that are not touched keep their invariant. */
  lemma OthersKept(w: World, w': World, sid: Sid)
    requires Linkage(w) && Linkage(w')
    requires forall x | x in w'.heap && x != sid :: x in w.heap && w'.heap[x] == w.heap[x] && SessionOk(w, x)
    requires forall fd | fd in w.table && w.table[fd].sid != sid :: fd in w'.table && w'.table[fd] == w.table[fd]
    requires |w'.hist| >= |w.hist| && forall x | 0 <= x < |w.hist| && x != sid :: w'.hist[x] == w.hist[x]
    ensures forall x | x in w'.heap && x != sid :: SessionOk(w', x)
  {
    forall x | x in w'.heap && x != sid ensures SessionOk(w', x) {
      assert SessionOk(w, x) && Anchored(w, x) && Anchored(w', x);
    }
  }

  /** A handler that only touches its session keeps the invariant of all the rest. */
  lemma TouchKeeps(w: World, w': World, sid: Sid)
    requires InvExcept(w, sid) && Touch(w, w', sid)
    requires sid < |w'.hist| ==> HistOk(w'.hist[sid]) && OwnAnswer(w', sid) && MetersFollow(w, w', sid)
    ensures InvExcept(w', sid)
  {
    hide Linkage, Resolution, Accounts, HistOk, SessionOk, OwnAnswer, MetersFollow;
    SidIsKnown(w, sid);
    TouchKeepsLinkage(w, w', sid);
    TouchKeepsResolution(w, w', sid);
    TouchKeepsAccounts(w, w', sid);
    OthersKept(w, w', sid);
    forall x | 0 <= x < |w'.hist| ensures HistOk(w'.hist[x]) { assert x != sid ==> HistOk(w.hist[x]); }
  }
}
