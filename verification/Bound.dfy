/** How many events can change a session before its relay starts. */
module Bound {
  import opened Basics
  import opened Socks5
  import opened Proxy
  import opened Invariant
  import opened Isolation
  import opened Handlers
  import opened Events
  import opened Progress

  /** The session is there and its relay has not started. */
  ghost predicate Handshaking(w: World, sid: Sid) {
    sid in w.heap && !w.heap[sid].relayStarted
  }

  // ---------------------------------------------------------------- the measure as a number

  /** Addresses, reply bytes and undecided input stay within their bounds. */
  ghost predicate Fits(s: Session, longest: nat) {
    |s.cursor| <= longest && 0 <= Unsent(s) <= 10 && |s.readBuf| <= 512
  }

  ghost function Rank(s: Session, longest: nat): int {
    ((StagesLeft(s) * (longest + 1) + |s.cursor|) * 11 + Unsent(s)) * 513 + (512 - |s.readBuf|)
  }

  lemma {:induction false} FewerStages(a: nat, b: nat, n: nat)
    requires a < b
    ensures a * n + n <= b * n
  {
    assert b * n == (b - 1) * n + n;
    if a < b - 1 { FewerStages(a, b - 1, n); }
  }

  lemma CloserRanks(s: Session, s': Session, longest: nat)
    requires Fits(s, longest) && Fits(s', longest) && Closer(s, s')
    ensures Rank(s', longest) < Rank(s, longest)
  {
    if StagesLeft(s') < StagesLeft(s) { FewerStages(StagesLeft(s'), StagesLeft(s), longest + 1); }
  }

  lemma RankIsAtLeast(s: Session, longest: nat)
    requires Fits(s, longest)
    ensures Rank(s, longest) >= 5643 * (longest + 1)
  {
    assert StagesLeft(s) * (longest + 1) >= longest + 1 by {
      if StagesLeft(s) > 1 { FewerStages(1, StagesLeft(s), longest + 1); }
    }
  }

  lemma HandshakesFit(w: World, sid: Sid)
    requires sid in w.heap && SessionOk(w, sid) && !w.heap[sid].relayStarted
    ensures 0 <= Unsent(w.heap[sid]) <= 10 && |w.heap[sid].readBuf| <= 512
  {
    hide Story;
    UndecidedIsShort(w.heap[sid].readBuf, map[]);
  }

  // ---------------------------------------------------------------- how long a cursor can get

  /** No lookup among these events returns more than `longest` addresses. */
  ghost predicate ShortAnswers(events: seq<Event>, longest: nat) {
    forall k | 0 <= k < |events| && events[k].ThreadRuns? :: |events[k].answer.addresses| <= longest
  }

  ghost predicate AnswersFit(w: World, longest: nat) {
    forall j | 0 <= j < |w.origins| && w.origins[j].answer.Some? :: |w.origins[j].answer.value.addresses| <= longest
  }

  lemma WorkFits(w: World, r: World, sid: Sid, longest: nat)
    requires AnswersFit(w, longest) && Work(w, r, sid)
    ensures AnswersFit(r, longest)
  {
  }

  lemma ThreadFits(w: World, j: Jid, answer: Answer, longest: nat)
    requires AnswersFit(w, longest) && |answer.addresses| <= longest
    ensures AnswersFit(ThreadStep(w, j, answer), longest)
  {
    hide FreeJob, FreeList;
    if j in w.threads && w.threads[j].Discard? {
      var a := if w.threads[j].result then FreeList(w, j) else w;
      assert a.origins == w.origins by { FreeingKeepsOrigins(w, j); }
      assert FreeJob(a, j).origins == a.origins by { FreeingKeepsOrigins(a, j); }
    }
  }

  lemma FreeingKeepsOrigins(w: World, j: Jid)
    ensures FreeList(w, j).origins == w.origins && FreeJob(w, j).origins == w.origins
  {
  }

  lemma StepFits(w: World, e: Event, longest: nat)
    requires Inv(w) && Awaited(w) && AnswersFit(w, longest)
    requires e.ThreadRuns? ==> |e.answer.addresses| <= longest
    ensures AnswersFit(Step(w, e), longest)
  {
    hide Inv, AnswersFit, AcceptClient, Dispatch, DrainOne, ThreadStep, Work, Isolated;
    match e {
      case Accept(want) => AcceptFits(w, want, longest);
      case Ready(fd, readable, writable, onRead, onWrite) =>
        if fd in w.table {
          DispatchKeeps(w, fd, readable, writable, onRead, onWrite);
          WorkFits(w, Dispatch(w, fd, readable, writable, onRead, onWrite), w.table[fd].sid, longest);
        } else {
          NothingDispatched(w, fd, readable, writable, onRead, onWrite);
        }
      case Drain(io) => DrainFits(w, io, longest);
      case ThreadRuns(j, answer) => ThreadFits(w, j, answer, longest);
    }
  }

  lemma AcceptFits(w: World, want: Fd, longest: nat)
    requires AnswersFit(w, longest)
    ensures AnswersFit(AcceptClient(w, want), longest)
  {
  }

  lemma DrainFits(w: World, io: Io, longest: nat)
    requires Inv(w) && Awaited(w) && AnswersFit(w, longest)
    ensures AnswersFit(DrainOne(w, io), longest)
  {
    hide Inv, TakeAnswer, DrainOne;
    if w.queue != [] {
      assert Due(w, w.queue[0]);
      var sid := w.table[w.queue[0]].sid;
      DrainIs(w, io);
      TakeAnswerIsolated(w.(queue := w.queue[1..]), w.queue[0], sid, w.heap[sid].job.value, io, sid + 1);
    } else {
      NothingDrained(w, io);
    }
  }

  lemma {:induction false} RunFits(events: seq<Event>, longest: nat)
    requires ShortAnswers(events, longest)
    ensures AnswersFit(Run(START, events), longest)
    decreases |events|
  {
    hide Inv, Awaited, Step;
    if events != [] {
      var init := events[..|events| - 1];
      RunFits(init, longest);
      Reachable(init);
      StepFits(Run(START, init), events[|events| - 1], longest);
    }
  }

  /** Every list is the answer to the lookup it came from. */
  lemma ListsFit(w: World, l: Jid, longest: nat)
    requires Resolution(w) && AnswersFit(w, longest) && l in w.lists
    ensures |w.lists[l]| <= longest
  {
    assert Phase(w, l);
  }

  // ---------------------------------------------------------------- the bound

  /** How many of the events from the `from`-th on change the record of session `sid`. */
  ghost function Changes(events: seq<Event>, from: nat, sid: Sid): nat
    requires from <= |events|
    decreases |events|
  {
    if |events| == from then 0
    else
      var init := events[..|events| - 1];
      var w, w' := Run(START, init), Run(START, events);
      Changes(init, from, sid) + if sid in w.heap && sid in w'.heap && w'.heap[sid] == w.heap[sid] then 0 else 1
  }

  /** One event that changes the session lowers its rank. */
  lemma OneChange(events: seq<Event>, sid: Sid, longest: nat)
    requires events != [] && ShortAnswers(events, longest)
    requires Handshaking(Run(START, events[..|events| - 1]), sid) && Handshaking(Run(START, events), sid)
    requires Fits(Run(START, events[..|events| - 1]).heap[sid], longest)
    ensures var s, s' := Run(START, events[..|events| - 1]).heap[sid], Run(START, events).heap[sid];
            Fits(s', longest) && (s' == s || Rank(s', longest) < Rank(s, longest))
  {
    hide Step, Closer, Rank, Awaited, HistOk, Accounts, Linkage, SessionOk;
    var init, e := events[..|events| - 1], events[|events| - 1];
    var w := Run(START, init);
    Reachable(init);
    Reachable(events);
    RunFits(init, longest);
    StepForward(w, e, sid);
    HandshakesFit(Run(START, events), sid);
    var s, s' := w.heap[sid], Step(w, e).heap[sid];
    if s.job.Some? && s.job.value in w.lists { ListsFit(w, s.job.value, longest); }
    if s' != s { CloserRanks(s, s', longest); }
  }

  /** While a session is in the handshake, the events that change it are at most as many as its rank has room. */
  lemma {:induction false} RankBoundsChanges(events: seq<Event>, from: nat, sid: Sid, longest: nat)
    requires from <= |events| && ShortAnswers(events, longest)
    requires forall k | from <= k <= |events| :: Handshaking(Run(START, events[..k]), sid)
    requires Handshaking(Run(START, events[..from]), sid) && |Run(START, events[..from]).heap[sid].cursor| <= longest
    ensures Handshaking(Run(START, events), sid) && Fits(Run(START, events).heap[sid], longest)
    ensures Changes(events, from, sid) + Rank(Run(START, events).heap[sid], longest)
            <= Rank(Run(START, events[..from]).heap[sid], longest)
    decreases |events|
  {
    hide Run, Rank, Inv, SessionOk, Awaited;
    var n := |events|;
    assert events[..n] == events;
    assert Handshaking(Run(START, events[..n]), sid);
    if n == from {
      Reachable(events);
      AllAreOk(Run(START, events), sid);
      HandshakesFit(Run(START, events), sid);
    } else {
      var init := events[..n - 1];
      assert forall k | from <= k <= n - 1 :: init[..k] == events[..k];
      RankBoundsChanges(init, from, sid, longest);
      OneChange(events, sid, longest);
    }
  }

  lemma AllAreOk(w: World, sid: Sid)
    requires Inv(w) && sid in w.heap
    ensures SessionOk(w, sid)
  {
  }

  /** The bound for a whole handshake: a session that was just accepted is changed by at most this many events before the
      one that starts its relay or ends it, in any run whose lookups return at most `longest` addresses. */
  lemma HandshakeTakesAtMost(events: seq<Event>, from: nat, fd: Fd, sid: Sid, longest: nat)
    requires from <= |events| && ShortAnswers(events, longest)
    requires forall k | from <= k <= |events| :: Handshaking(Run(START, events[..k]), sid)
    requires Handshaking(Run(START, events[..from]), sid) && Run(START, events[..from]).heap[sid] == Fresh(fd)
    ensures Changes(events, from, sid) <= 5 * 5643 * (longest + 1) + 512
  {
    hide Run, Rank;
    RankBoundsChanges(events, from, sid, longest);
    RankIsAtLeast(Run(START, events).heap[sid], longest);
    FreshRank(fd, longest);
  }

  lemma FreshRank(fd: Fd, longest: nat)
    ensures Rank(Fresh(fd), longest) == 6 * 5643 * (longest + 1) + 512
  {
  }
}
