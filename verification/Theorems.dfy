/** What holds in every run of the proxy. Each statement is about any sequence of events, that is any order of
    ready descriptors, any results of the system calls, any interleaving of the resolver threads, any accepted
    connections and any changes of the user table. */
module Theorems {
  import opened Basics
  import opened Socks5
  import opened Messages
  import opened Proxy
  import opened Codes
  import opened Invariant
  import opened Local
  import opened RelaySteps
  import opened Handlers
  import opened Events

  // ---------------------------------------------------------------- what the invariant says of one thing

  lemma SessionFacts(events: seq<Event>, sid: Sid)
    ensures var w := Run(START, events);
            sid in w.heap ==> SessionOk(w, sid) && OwnRequests(w, sid)
  {
    hide Run, Awaited, Linkage, Accounts, HistOk, Phase, OwnAnswer, OwnRequests, SessionOk;
    Reachable(events);
  }

  lemma HistFacts(events: seq<Event>, sid: Sid)
    ensures var w := Run(START, events);
            sid < |w.hist| ==> HistOk(w.hist[sid]) && OwnAnswer(w, sid)
  {
    hide Run, Awaited, Linkage, Accounts, HistOk, Phase, OwnAnswer, OwnRequests, SessionOk;
    Reachable(events);
  }

  lemma JobFacts(events: seq<Event>, j: Jid)
    ensures var w := Run(START, events);
            && (j in w.jobs || j in w.threads || j in w.lists ==> j < |w.origins|)
            && (j < |w.origins| ==> Phase(w, j))
  {
    hide Run, Awaited, Linkage, Accounts, HistOk, Phase, OwnAnswer, OwnRequests, SessionOk;
    Reachable(events);
  }

  // ---------------------------------------------------------------- the relay

  /** Conservation: at any moment, for each direction, what was received is what was sent on followed by what is
      buffered. After a session is gone, what was sent on is still a prefix of what was received. */
  lemma RelayConserves(events: seq<Event>, sid: Sid)
    ensures var w := Run(START, events);
            && (sid in w.heap ==>
                  && sid < |w.hist| && w.heap[sid].c2tOff <= |w.heap[sid].c2t| && w.heap[sid].t2cOff <= |w.heap[sid].t2c|
                  && w.hist[sid].c2tIn == w.hist[sid].c2tOut + w.heap[sid].c2t[w.heap[sid].c2tOff..]
                  && w.hist[sid].t2cIn == w.hist[sid].t2cOut + w.heap[sid].t2c[w.heap[sid].t2cOff..])
            && (sid < |w.hist| ==> w.hist[sid].c2tOut <= w.hist[sid].c2tIn && w.hist[sid].t2cOut <= w.hist[sid].t2cIn)
  {
    SessionFacts(events, sid);
    HistFacts(events, sid);
  }

  /** Drain: a session that ended because a peer's stream ended has forwarded every byte that peer sent. */
  lemma EndedStreamsAreDrained(events: seq<Event>, sid: Sid)
    ensures var w := Run(START, events);
            sid < |w.hist| ==>
              && (w.hist[sid].ending == ClientStreamEnded ==> w.hist[sid].c2tOut == w.hist[sid].c2tIn)
              && (w.hist[sid].ending == TargetStreamEnded ==> w.hist[sid].t2cOut == w.hist[sid].t2cIn)
  {
    HistFacts(events, sid);
  }

  /** In a started relay exactly one of "read the producer" and "write the consumer" is armed, in each direction. */
  lemma RelayIsArmedOneWay(events: seq<Event>, sid: Sid)
    ensures var w := Run(START, events);
            sid in w.heap && w.heap[sid].relayStarted ==>
              var s := w.heap[sid];
              && s.clientFd.Some? && s.targetFd.Some? && s.clientFd.value in w.table && s.targetFd.value in w.table
              && (w.table[s.clientFd.value].interest.read <==> !w.table[s.targetFd.value].interest.write)
              && (w.table[s.targetFd.value].interest.read <==> !w.table[s.clientFd.value].interest.write)
  {
    SessionFacts(events, sid);
  }

  /** The client is read only when the stage wants input: during the negotiation with no reply pending, or in a
      started relay with an empty client-to-target buffer. The undecided input never exceeds 512 bytes. */
  lemma ReadInterestFitsStage(events: seq<Event>, sid: Sid)
    ensures var w := Run(START, events);
            sid in w.heap && w.heap[sid].clientFd.Some? && w.heap[sid].clientFd.value in w.table
            && w.table[w.heap[sid].clientFd.value].interest.read ==>
              var s := w.heap[sid];
              || ((s.stage == Greeting || s.stage == Auth || s.stage == Request) && s.writeBuf == [] && |s.readBuf| <= 512)
              || (s.stage == Relay && s.relayStarted && s.c2t == [])
  {
    SessionFacts(events, sid);
    var w := Run(START, events);
    if sid in w.heap { UndecidedIsShort(w.heap[sid].readBuf, map[]); }
  }

  // ---------------------------------------------------------------- calls that would block

  lemma BlockedReply(w: World, fd: Fd, sid: Sid, sends: seq<Send>)
    requires sid in w.heap && (sends == [] || sends[0].SendBlocked?) && w.heap[sid].writeOff < |w.heap[sid].writeBuf|
    ensures ClientWrite(w, fd, sid, sends) == w
  {
    hide CloseConnection, ClientFlush, ClientReplied, SetInterest;
    assert w.heap[sid := w.heap[sid]] == w.heap;
  }

  lemma BlockedDown(w: World, sid: Sid, sends: seq<Send>)
    requires sid in w.heap && sid < |w.hist| && (sends == [] || sends[0].SendBlocked?) && w.heap[sid].t2cOff < |w.heap[sid].t2c|
    ensures ClientFlush(w, sid, sends) == w
  {
    hide CloseConnection, UpdateRelayInterests;
    var s, h := w.heap[sid], w.hist[sid];
    assert Slice(s.t2c, s.t2cOff, s.t2cOff) == [] && h.t2cOut + [] == h.t2cOut;
    assert w.heap[sid := s] == w.heap && w.hist[sid := h] == w.hist;
  }

  lemma BlockedUp(w: World, sid: Sid, sends: seq<Send>)
    requires sid in w.heap && sid < |w.hist| && (sends == [] || sends[0].SendBlocked?) && w.heap[sid].c2tOff < |w.heap[sid].c2t|
    ensures TargetFlush(w, sid, sends) == w
  {
    hide CloseConnection, UpdateRelayInterests;
    var s, h := w.heap[sid], w.hist[sid];
    assert Slice(s.c2t, s.c2tOff, s.c2tOff) == [] && h.c2tOut + [] == h.c2tOut;
    assert w.heap[sid := s] == w.heap && w.hist[sid := h] == w.hist;
  }

  lemma BlockedClient(w: World, fd: Fd, sid: Sid, io: Io)
    requires Live(w, sid) && Good(ViewOf(w, sid)) && w.heap[sid].clientFd == Some(fd)
    ensures w.table[fd].interest.read && io.recv.RecvBlocked? ==> ClientRead(w, fd, sid, io) == w
    ensures w.table[fd].interest.write && (io.sends == [] || io.sends[0].SendBlocked?) ==> ClientWrite(w, fd, sid, io.sends) == w
  {
    hide ClientFlush, CloseConnection, UpdateRelayInterests, ClientReplied, SetInterest, HistOk, Story;
    var s := w.heap[sid];
    if io.sends == [] || io.sends[0].SendBlocked? {
      if s.writeOff < |s.writeBuf| { BlockedReply(w, fd, sid, io.sends); }
      if s.t2cOff < |s.t2c| { BlockedDown(w, sid, io.sends); }
    }
  }

  lemma BlockedTarget(w: World, fd: Fd, sid: Sid, io: Io)
    requires Live(w, sid) && Good(ViewOf(w, sid)) && w.heap[sid].targetFd == Some(fd) && w.heap[sid].stage == Relay
    ensures w.table[fd].interest.read && io.recv.RecvBlocked? ==> TargetRead(w, fd, sid, io) == w
    ensures w.table[fd].interest.write && (io.sends == [] || io.sends[0].SendBlocked?) ==> TargetWrite(w, fd, sid, io) == w
  {
    if (io.sends == [] || io.sends[0].SendBlocked?) && w.heap[sid].c2tOff < |w.heap[sid].c2t| { BlockedUp(w, sid, io.sends); }
    hide TargetFlush, CloseConnection, UpdateRelayInterests, HistOk, Story;
  }

  /** A call that would block costs nothing: the event leaves the whole world as it was. The exception is a pending
      connect, whose readiness is not about sending. */
  lemma WouldBlockChangesNothing(events: seq<Event>, fd: Fd, io: Io)
    ensures var w := Run(START, events);
            fd in w.table ==>
              && w.table[fd].sid in w.heap
              && (w.table[fd].interest.read && io.recv.RecvBlocked? ==> Step(w, Ready(fd, true, false, io, io)) == w)
              && (w.heap[w.table[fd].sid].stage != Connecting && w.table[fd].interest.write
                  && (io.sends == [] || io.sends[0].SendBlocked?) ==>
                    Step(w, Ready(fd, false, true, io, io)) == w)
  {
    hide Run, Awaited, Inv, ClientRead, ClientWrite, TargetRead, TargetWrite;
    Reachable(events);
    var w := Run(START, events);
    if fd in w.table {
      Lookup1(w, fd);
      var sid := w.table[fd].sid;
      TargetsAreBusy(w, sid);
      if w.table[fd].kind == ClientItem { BlockedClient(w, fd, sid, io); }
      else if w.heap[sid].stage == Relay { BlockedTarget(w, fd, sid, io); }
    }
  }

  /** A session with a target is connecting to it or relaying; while connecting it does not read. */
  lemma TargetsAreBusy(w: World, sid: Sid)
    requires Live(w, sid) && Good(ViewOf(w, sid))
    ensures w.heap[sid].targetFd.Some? ==>
              w.heap[sid].stage == Relay || (w.heap[sid].stage == Connecting && TargetInterest(w, sid) == Some(WRITE))
  {
    hide HistOk, Story;
  }

  // ---------------------------------------------------------------- wake-ups

  ghost predicate Armed(w: World, fd: Option<Fd>) {
    fd.Some? && fd.value in w.table && (w.table[fd.value].interest.read || w.table[fd.value].interest.write)
  }

  /** A lookup that will wake the session: its thread is still at work, is about to notify, or has notified. */
  ghost predicate LookupWakes(w: World, s: Session) {
    s.stage == Resolving && s.clientFd.Some? && s.job.Some? && s.job.value in w.jobs &&
    if !w.jobs[s.job.value].done then s.job.value in w.threads && !w.threads[s.job.value].Notify? && !w.threads[s.job.value].Discard?
    else (s.job.value in w.threads && w.threads[s.job.value] == Notify(s.clientFd.value)) || s.clientFd.value in w.queue
  }

  /** No session is stuck: each live one has an armed descriptor or a lookup that will wake it. A finished lookup
      whose notification is not yet queued has a thread about to queue it. */
  lemma NoSessionIsStuck(events: seq<Event>, sid: Sid)
    ensures var w := Run(START, events);
            sid in w.heap ==>
              && (Armed(w, w.heap[sid].clientFd) || Armed(w, w.heap[sid].targetFd) || LookupWakes(w, w.heap[sid]))
              && (w.heap[sid].stage == Resolving ==> LookupWakes(w, w.heap[sid]))
  {
    SessionFacts(events, sid);
    var w := Run(START, events);
    if sid in w.heap && w.heap[sid].job.Some? {
      JobFacts(events, w.heap[sid].job.value);
      hide Story;
    }
  }

  /** While the server runs, nothing is orphaned and no notification is stale: every job has the session that asked for
      it waiting, every thread has its job, and the queued notifications are for distinct client descriptors, each of a
      resolving session whose job is done and whose thread has ended. */
  lemma NotificationsAreDue(events: seq<Event>)
    ensures var w := Run(START, events);
            && (forall j | j in w.jobs :: j < |w.origins| && w.origins[j].sid in w.heap && w.heap[w.origins[j].sid].job == Some(j))
            && (forall j | j in w.threads :: j in w.jobs)
            && (forall i, k | 0 <= i < k < |w.queue| :: w.queue[i] != w.queue[k])
            && (forall fd | fd in w.queue ::
                  && fd in w.table && w.table[fd].kind == ClientItem && w.table[fd].sid in w.heap
                  && var s := w.heap[w.table[fd].sid];
                  && s.stage == Resolving && s.job.Some? && s.job.value in w.jobs && w.jobs[s.job.value].done
                  && s.job.value !in w.threads)
  {
    hide Run, Inv, SessionOk;
    Reachable(events);
    var w := Run(START, events);
    forall fd | fd in w.queue ensures Due(w, fd) && w.heap[w.table[fd].sid].stage == Resolving {
      var k :| 0 <= k < |w.queue| && w.queue[k] == fd;
      assert Due(w, w.queue[k]);
      SessionFacts(events, w.table[fd].sid);
      WaitingIsResolving(w, w.table[fd].sid);
    }
  }

  lemma WaitingIsResolving(w: World, sid: Sid)
    requires sid in w.heap && SessionOk(w, sid) && w.heap[sid].job.Some?
    ensures w.heap[sid].stage == Resolving
  {
    hide Story;
  }

  /** No stolen result: whatever list a session ever used was the answer to the name and port of its own request,
      however descriptors were reused, and what it may try are the IPv4 and IPv6 entries of that answer, all and in order. */
  lemma AnswersAreOwn(events: seq<Event>, sid: Sid)
    ensures var w := Run(START, events);
            sid < |w.hist| && w.hist[sid].resolved.Some? ==>
              var h := w.hist[sid];
              && h.resolved.value < |w.origins| && h.request.Some? && h.request.value.atyp == ATYP_DOMAIN
              && var o := w.origins[h.resolved.value];
              && o.sid == sid && o.name == CString(h.request.value.address) && o.port == h.request.value.port
              && o.answer.Some? && o.answer.value.status == 0 && Picked(o.answer.value.addresses, h.candidates)
  {
    hide Picked, Filter;
    HistFacts(events, sid);
    var w := Run(START, events);
    if sid < |w.hist| && w.hist[sid].resolved.Some? { FilterPicks(w.origins[w.hist[sid].resolved.value].answer.value.addresses); }
  }

  // ---------------------------------------------------------------- connecting

  /** What may be tried for a request that spells out an address is that address, and nothing for one that was not
      resolved. With AnswersAreOwn this says what the candidates of every session are. */
  lemma LiteralRequestsUseTheirAddress(events: seq<Event>, sid: Sid)
    ensures var w := Run(START, events);
            sid < |w.hist| ==>
              var h := w.hist[sid];
              && (h.request.Some? && h.request.value.atyp != 3 ==>
                    h.candidates == [Address(if h.request.value.atyp == 1 then 2 else 10, h.request.value.address, h.request.value.port)])
              && (h.request.None? || (h.request.value.atyp == 3 && h.resolved.None?) ==> h.candidates == [])
  {
    HistFacts(events, sid);
  }

  /** The errno that a run of failed attempts leaves: that of the last one, or 0 when there was none. */
  ghost predicate EndErrno(tried: seq<Try>, errno: int) {
    if tried == [] then errno == 0 else tried[|tried| - 1].outcome == Failed(errno)
  }

  /** Fallback: the addresses tried are a prefix, in order, of the usable ones; all attempts but the last failed;
      success was reported exactly when the last one connected; and a failure is reported only after every usable
      address was tried and failed, with the code of the last errno. */
  lemma FallbackIsComplete(events: seq<Event>, sid: Sid)
    ensures var w := Run(START, events);
            sid < |w.hist| ==>
              var h := w.hist[sid];
              && Addresses(h.tried) <= h.candidates
              && (forall i | 0 <= i < |h.tried| - 1 :: h.tried[i].outcome.Failed?)
              && (h.succeeded <==> h.tried != [] && h.tried[|h.tried| - 1].outcome == Connected)
              && (h.succeeded ==> h.replies == [0])
              && (h.replies != [] && !h.succeeded && CandidatesKnown(h) ==>
                    && Addresses(h.tried) == h.candidates && AllFailed(h.tried)
                    && exists errno :: EndErrno(h.tried, errno) && h.replies == [Listed(ERRNO_REPLIES, errno)])
  {
    hide HistOk, OwnAnswer, Addresses, AllFailed, EndErrno, CandidatesKnown, Run, Listed;
    HistFacts(events, sid);
    var w := Run(START, events);
    if sid < |w.hist| { FallbackStory(w.hist[sid]); }
  }

  lemma FallbackStory(h: Hist)
    requires HistOk(h)
    ensures Addresses(h.tried) <= h.candidates
    ensures forall i | 0 <= i < |h.tried| - 1 :: h.tried[i].outcome.Failed?
    ensures h.succeeded <==> h.tried != [] && h.tried[|h.tried| - 1].outcome == Connected
    ensures h.succeeded ==> h.replies == [0]
    ensures h.replies != [] && !h.succeeded && CandidatesKnown(h) ==>
              && Addresses(h.tried) == h.candidates && AllFailed(h.tried)
              && exists errno :: EndErrno(h.tried, errno) && h.replies == [Listed(ERRNO_REPLIES, errno)]
  {
    hide Admitted, Listed, ReplyForErrno;
    forall i | 0 <= i < |h.tried| - 1 ensures h.tried[i].outcome.Failed? {
      assert h.tried[..|h.tried| - 1][i] == h.tried[i];
    }
    if h.tried != [] && h.tried[|h.tried| - 1].outcome == Connected { assert !AllFailed(h.tried); }
    if h.replies != [] && !h.succeeded && CandidatesKnown(h) {
      RepliesAreListed(LastErrno(h.tried));
      assert EndErrno(h.tried, LastErrno(h.tried));
    }
  }

  /** A lookup of the session's own that succeeded without an address the proxy can use, with a list or without. */
  ghost predicate FoundNothingUsable(origins: seq<Origin>, h: Hist) {
    && h.lookup.Some? && h.lookup.value < |origins| && origins[h.lookup.value].answer.Some?
    && var answer := origins[h.lookup.value].answer.value;
    answer.status == 0 && NothingUsable(answer.addresses)
  }

  /** The reply to an unresolved name: the code of its own lookup's status, or 1 when no lookup was started. */
  ghost predicate LookupRefusal(origins: seq<Origin>, h: Hist, code: int) {
    if h.lookup.None? then code == 1
    else
      && h.lookup.value < |origins| && origins[h.lookup.value].answer.Some?
      && var answer := origins[h.lookup.value].answer.value;
      (answer.status != 0 || answer.addresses == []) && code == Listed(LOOKUP_REPLIES, answer.status)
  }

  /** Every refusal has its reason, in the bytes the client gets: a request that could not be taken up never gets the
      success code; a name that led to no list gets the code of its own lookup's status, or the general one when no lookup
      was started; otherwise all usable addresses were tried and the code is that of the last errno. */
  lemma RefusalsAreExplained(events: seq<Event>, sid: Sid)
    ensures var w := Run(START, events);
            sid < |w.hist| && w.hist[sid].replies != [] && !w.hist[sid].succeeded ==>
              var h := w.hist[sid];
              && |h.replies| == 1
              && (sid in w.heap ==> w.heap[sid].writeBuf == [] || w.heap[sid].writeBuf == ConnectReply(h.replies[0]))
              && (h.request.None? ==> h.replies[0] in {1, 7, 8} && h.tried == [] && h.lookup.None?)
              && (Unresolved(h) ==> h.tried == [] && LookupRefusal(w.origins, h, h.replies[0]))
              && (h.request.Some? && !Unresolved(h) ==>
                    && Addresses(h.tried) == h.candidates && AllFailed(h.tried)
                    && exists errno :: EndErrno(h.tried, errno) && h.replies[0] == Listed(ERRNO_REPLIES, errno))
  {
    hide Run, AllFailed, EndErrno, EndsWith, Admitted, AdmittedName, Listed, ReplyForGaiError, ReplyForErrno, Records;
    HistFacts(events, sid);
    FallbackIsComplete(events, sid);
    RepliesFollowDecisions(events, sid);
    var w := Run(START, events);
    if sid < |w.hist| {
      var h := w.hist[sid];
      assert |Addresses(h.tried)| == |h.tried|;
      if h.lookup.Some? && h.lookup.value < |w.origins| && w.origins[h.lookup.value].answer.Some? {
        RepliesAreListed(w.origins[h.lookup.value].answer.value.status);
      }
    }
  }

  /** A refusal carries the success code exactly when a lookup succeeded without a usable address, or the errno stored
      for the last attempt was 0. */
  lemma RefusalSaysSuccessIff(events: seq<Event>, sid: Sid)
    ensures var w := Run(START, events);
            sid < |w.hist| && w.hist[sid].replies != [] && !w.hist[sid].succeeded ==>
              var h := w.hist[sid];
              (h.replies[0] == 0 <==>
                 FoundNothingUsable(w.origins, h) || (h.tried != [] && h.tried[|h.tried| - 1].outcome == Failed(0)))
  {
    hide Run, HistOk, Filter, EndsWith, Admitted;
    HistFacts(events, sid);
    RefusalsAreExplained(events, sid);
    var w := Run(START, events);
    if sid < |w.hist| && w.hist[sid].replies != [] && !w.hist[sid].succeeded {
      var h := w.hist[sid];
      assert |Addresses(h.tried)| == |h.tried|;
      if h.lookup.Some? { NothingPicked(w.origins[h.lookup.value].answer.value.addresses); }
    }
  }

  lemma {:induction false} NothingUsableIsSkipped(w: World, sid: Sid, attempts: seq<Attempt>)
    requires sid in w.heap && Filter(w.heap[sid].cursor) == []
    requires w.heap[sid].cursor != [] ==> w.heap[sid].addresses.Some? && w.heap[sid].addresses.value in w.lists
    ensures StartNext(w, sid, attempts) == Started(Put(w, sid, w.heap[sid].(cursor := [])), false)
    decreases |w.heap[sid].cursor|
  {
    var s := w.heap[sid];
    if s.cursor == [] {
      assert w.heap[sid := s] == w.heap;
    } else {
      var w1 := Put(w, sid, s.(cursor := s.cursor[1..]));
      NothingUsableIsSkipped(w1, sid, attempts);
      assert w1.heap[sid := s.(cursor := [])] == w.heap[sid := s.(cursor := [])];
    }
  }

  /** The failing family: whenever a lookup succeeds with no list, or with one that has no usable address, the client is
      told "succeeded" and then disconnected. */
  lemma NothingUsableSaysSuccess(w: World, fd: Fd, sid: Sid, j: Jid, io: Io)
    requires sid in w.heap && sid < |w.hist| && w.heap[sid].lastError == 0
    requires j in w.jobs && w.jobs[j].status == 0 && (w.jobs[j].result ==> j in w.lists && NothingUsable(w.lists[j]))
    ensures var r := TakeAnswer(w, fd, sid, j, io);
            && sid in r.heap && r.heap[sid].stage == Closing && r.heap[sid].writeBuf == RequestResponse(REPLY_SUCCESS)
            && sid < |r.hist| && r.hist[sid].replies == w.hist[sid].replies + [REPLY_SUCCESS]
            && r.hist[sid].tried == w.hist[sid].tried && r.hist[sid].succeeded == w.hist[sid].succeeded
  {
    hide StartNext, AfterStart, Refuse, SetInterest;
    var s := w.heap[sid];
    var w1 := Put(FreeJob(w, j), sid, s.(job := None));
    if w.jobs[j].result {
      NothingPicked(w.lists[j]);
      var h := Past(w1, sid);
      var w2 := Put(Remember(w1, sid, h.(resolved := Some(j), candidates := Filter(w1.lists[j]))),
                    sid, s.(job := None, addresses := Some(j), cursor := w1.lists[j]));
      NothingUsableIsSkipped(w2, sid, io.attempts);
      RefusedWithSuccess(StartNext(w2, sid, io.attempts).w, fd, sid);
      AfterStartRefuses(StartNext(w2, sid, io.attempts).w, fd, sid);
    } else {
      RefusedWithSuccess(w1, fd, sid);
    }
  }

  lemma AfterStartRefuses(w: World, fd: Fd, sid: Sid)
    requires sid in w.heap && w.heap[sid].lastError == 0
    ensures AfterStart(Started(w, false), fd, sid) == SetInterest(Refuse(w, sid, REPLY_SUCCESS, true), fd, WRITE)
  {
    hide Refuse, SetInterest;
  }

  lemma LogAccessKeepsReplies(w: World, sid: Sid)
    requires sid in w.heap && sid < |w.hist|
    ensures var r := LogAccess(w, sid, false);
            && sid in r.heap && sid < |r.hist| && r.hist[sid].replies == w.hist[sid].replies
            && r.hist[sid].tried == w.hist[sid].tried && r.hist[sid].succeeded == w.hist[sid].succeeded
  {
    if w.heap[sid].accessLogged || !HasDestination(w.heap[sid]) {} else {}
  }

  lemma RefusedWithSuccess(w: World, fd: Fd, sid: Sid)
    requires sid in w.heap && sid < |w.hist|
    ensures var r := SetInterest(Refuse(w, sid, REPLY_SUCCESS, true), fd, WRITE);
            && sid in r.heap && r.heap[sid].stage == Closing && r.heap[sid].writeBuf == RequestResponse(REPLY_SUCCESS)
            && sid < |r.hist| && r.hist[sid].replies == w.hist[sid].replies + [REPLY_SUCCESS]
            && r.hist[sid].tried == w.hist[sid].tried && r.hist[sid].succeeded == w.hist[sid].succeeded
  {
    hide RequestResponse, LogAccess;
    var h := w.hist[sid];
    var w1 := w.(hist := w.hist[sid := h.(replies := h.replies + [REPLY_SUCCESS])],
                 metrics := w.metrics.(failed := w.metrics.failed + 1));
    LogAccessKeepsReplies(w1, sid);
    var w2 := LogAccess(w1, sid, false);
    assert Refuse(w, sid, REPLY_SUCCESS, true)
           == Put(w2, sid, w2.heap[sid].(writeBuf := RequestResponse(REPLY_SUCCESS), writeOff := 0, stage := Closing));
    hide Refuse;
    if fd in w2.table {} else {}
  }

  // ---------------------------------------------------------------- authentication

  /** The credentials a session presented are spelt out in its message and were in the table it was decided under. */
  ghost predicate Presented(d: Decision, user: seq<byte>, pass: seq<byte>) {
    && |user| < 256 && |pass| < 256
    && AuthMessage(user, pass) <= d.bytes
    && user in d.users && d.users[user] == pass
  }

  /** The greeting offered "no authentication" and no passwords, while nobody was configured. */
  ghost predicate OfferedNoAuthOnly(d: Decision, methods: seq<byte>) {
    && |methods| < 256 && GreetingMessage(methods) <= d.bytes
    && METHOD_NO_AUTH in methods && METHOD_USERNAME_PASSWORD !in methods
    && d.users == map[]
  }

  lemma ChosenMeansOffered(d: Decision)
    requires DecideGreeting(d.bytes, d.users) == GreetingChoose(METHOD_NO_AUTH)
    ensures exists methods :: OfferedNoAuthOnly(d, methods)
  {
    var methods := d.bytes[2..2 + At(d.bytes, 1)];
    assert GreetingMessage(methods) == d.bytes[..2 + At(d.bytes, 1)];
    assert OfferedNoAuthOnly(d, methods);
  }

  lemma AcceptedMeansPresented(d: Decision)
    requires DecideAuth(d.bytes, d.users).AuthAccept?
    ensures exists pass :: Presented(d, DecideAuth(d.bytes, d.users).user, pass)
  {
    var user := DecideAuth(d.bytes, d.users).user;
    AuthIsDecided(d.bytes, d.users, user);
    assert Presented(d, user, d.users[user]);
  }

  /** Authentication safety: a session whose request is being served presented a pair that was configured when it
      was decided and carries that name, or was greeted while nobody was configured, offering no authentication
      and no passwords. This holds whatever happened to the user table since. */
  lemma ServedSessionsWereAdmitted(events: seq<Event>, sid: Sid)
    ensures var w := Run(START, events);
            sid in w.heap && w.heap[sid].stage in {Request, Resolving, Connecting, Relay} ==>
              && sid < |w.hist|
              && var h := w.hist[sid];
              || (h.auth.Some? && exists pass :: Presented(h.auth.value, w.heap[sid].username, pass))
              || (h.auth.None? && h.greeting.Some? && w.heap[sid].username == ANONYMOUS
                  && exists methods :: OfferedNoAuthOnly(h.greeting.value, methods))
  {
    SessionFacts(events, sid);
    var w := Run(START, events);
    if sid in w.heap && w.heap[sid].stage in {Request, Resolving, Connecting, Relay} {
      hide StageOk, HistOk, Presented, OfferedNoAuthOnly;
      if w.hist[sid].auth.Some? { AcceptedMeansPresented(w.hist[sid].auth.value); }
      else { ChosenMeansOffered(w.hist[sid].greeting.value); }
    }
  }

  lemma RequestIgnoresUsers(w: World, fd: Fd, sid: Sid, io: Io, users: UserMap)
    ensures ReadRequest(w, fd, sid, io.(users := users)) == ReadRequest(w, fd, sid, io)
  {
    hide Refuse, StartConnection, AfterStart, DetachResolver, FreeAddresses, Discarding, SetInterest, Put, Remember;
  }

  lemma ConnectIgnoresUsers(w: World, fd: Fd, sid: Sid, io: Io, users: UserMap)
    ensures TargetWrite(w, fd, sid, io.(users := users)) == TargetWrite(w, fd, sid, io)
    ensures TargetRead(w, fd, sid, io.(users := users)) == TargetRead(w, fd, sid, io)
  {
    hide TargetConnected, TargetFailed, TargetFlush, StartNext, Unregister, MarkLastTry, SetInterest, Put, Remember,
         CloseConnection, UpdateRelayInterests, ClientWrite;
  }

  /** Changing the user table changes nothing that a session past the negotiation does next: whatever its descriptors
      get to do, they do the same under any other table. */
  lemma AdmittedSessionsIgnoreUserChanges(events: seq<Event>, fd: Fd, readable: bool, writable: bool, onRead: Io, onWrite: Io,
                                          users: UserMap)
    ensures var w := Run(START, events);
            fd in w.table ==>
              && w.table[fd].sid in w.heap
              && (w.heap[w.table[fd].sid].stage !in {Greeting, Auth} ==>
                    Step(w, Ready(fd, readable, writable, onRead.(users := users), onWrite.(users := users)))
                    == Step(w, Ready(fd, readable, writable, onRead, onWrite)))
  {
    hide Inv, Awaited, Run, Step;
    var w := Run(START, events);
    Reachable(events);
    if fd in w.table {
      Lookup1(w, fd);
      if w.heap[w.table[fd].sid].stage !in {Greeting, Auth} {
        DispatchIgnoresUsers(w, fd, readable, writable, onRead, onWrite, users);
      }
    }
  }

  lemma DispatchIgnoresUsers(w: World, fd: Fd, readable: bool, writable: bool, onRead: Io, onWrite: Io, users: UserMap)
    requires fd in w.table && w.table[fd].sid in w.heap && w.heap[w.table[fd].sid].stage !in {Greeting, Auth}
    ensures Step(w, Ready(fd, readable, writable, onRead.(users := users), onWrite.(users := users)))
            == Step(w, Ready(fd, readable, writable, onRead, onWrite))
  {
    hide ClientRead, TargetRead, ClientWrite, TargetWrite;
    var sid := w.table[fd].sid;
    ReadIgnoresUsers(w, fd, sid, onRead, users);
    ConnectIgnoresUsers(w, fd, sid, onRead, users);
    var w1 := if readable && w.table[fd].interest.read then Readable(w, fd, w.table[fd].kind, sid, onRead) else w;
    ConnectIgnoresUsers(w1, fd, sid, onWrite, users);
  }

  lemma ReadIgnoresUsers(w: World, fd: Fd, sid: Sid, io: Io, users: UserMap)
    requires sid in w.heap && w.heap[sid].stage !in {Greeting, Auth}
    ensures ClientRead(w, fd, sid, io.(users := users)) == ClientRead(w, fd, sid, io)
  {
    hide ReadGreeting, ReadAuth, ReadRequest, TargetWrite, CloseConnection, UpdateRelayInterests, Put, Remember;
    var s, h := w.heap[sid], Past(w, sid);
    if io.recv.Received? {
      if s.stage == Relay {
        var got := Take(io.recv.bytes, BUFFER_SIZE);
        var w1 := Put(Remember(w, sid, h.(c2tIn := h.c2tIn + got)), sid, s.(c2t := got, c2tOff := 0));
        if s.targetFd.Some? { ConnectIgnoresUsers(UpdateRelayInterests(w1, sid), s.targetFd.value, sid, io, users); }
      } else {
        var got := Take(io.recv.bytes, if |s.readBuf| <= BUFFER_SIZE then BUFFER_SIZE - |s.readBuf| else 0);
        RequestIgnoresUsers(Put(w, sid, s.(readBuf := s.readBuf + got)), fd, sid, io, users);
      }
    }
  }

  /** The same for the past: no request was ever taken up, and no byte relayed, without admission. */
  lemma NothingWithoutAdmission(events: seq<Event>, sid: Sid)
    ensures var w := Run(START, events);
            sid < |w.hist| ==>
              var h := w.hist[sid];
              && (h.c2tIn != [] || h.t2cIn != [] ==> h.succeeded)
              && (h.tried != [] || h.resolved.Some? || h.request.Some? ==>
                    || (h.auth.Some? && exists user, pass :: Presented(h.auth.value, user, pass))
                    || (h.auth.None? && h.greeting.Some? && exists methods :: OfferedNoAuthOnly(h.greeting.value, methods)))
  {
    HistFacts(events, sid);
    var w := Run(START, events);
    if sid < |w.hist| {
      var h := w.hist[sid];
      NoRequestNoAttempt(w, sid);
      assert (h.c2tIn != [] || h.t2cIn != [] ==> h.succeeded) && (h.request.Some? ==> Admitted(h))
             && (h.resolved.Some? ==> h.request.Some?);
      hide HistOk, OwnAnswer;
      if h.request.Some? {
        hide Presented, OfferedNoAuthOnly;
        if h.auth.Some? { AcceptedMeansPresented(h.auth.value); } else { ChosenMeansOffered(h.greeting.value); }
      }
    }
  }

  lemma NoRequestNoAttempt(w: World, sid: Sid)
    requires sid < |w.hist| && HistOk(w.hist[sid]) && OwnAnswer(w, sid)
    ensures w.hist[sid].tried != [] ==> w.hist[sid].request.Some?
  {
  }

  /** A reply on its way says what was decided: the method chosen from the greeting, whether the credentials were
      accepted, or the outcome of the request; and nothing else is ever sent outside the relay. */
  lemma RepliesFollowDecisions(events: seq<Event>, sid: Sid)
    ensures var w := Run(START, events);
            sid in w.heap && w.heap[sid].writeBuf != [] ==>
              && sid < |w.hist|
              && var s := w.heap[sid]; var h := w.hist[sid];
              var chosen := if h.greeting.Some? then DecideGreeting(h.greeting.value.bytes, h.greeting.value.users) else GreetingWait;
              var checked := if h.auth.Some? then DecideAuth(h.auth.value.bytes, h.auth.value.users) else AuthWait;
              || (h.auth.None? && h.replies == [] && chosen.GreetingChoose? && s.writeBuf == [5, chosen.chosen])
              || (h.replies == [] && checked.AuthAccept? && s.stage == Request && s.writeBuf == [1, 0])
              || (h.replies == [] && checked.AuthReject? && s.stage == Closing && s.writeBuf == [1, 1])
              || (|h.replies| == 1 && s.stage in {Relay, Closing} && (s.stage == Relay <==> h.succeeded)
                  && s.writeBuf == [5, h.replies[0], 0, 1, 0, 0, 0, 0, 0, 0])
  {
    SessionFacts(events, sid);
    HistFacts(events, sid);
    var w := Run(START, events);
    if sid in w.heap && w.heap[sid].writeBuf != [] {
      hide Run, DecideGreeting, DecideAuth, Flow, Addresses, AllFailed;
      ReplyFits(w.heap[sid], w.hist[sid], ClientInterest(w, sid), TargetInterest(w, sid));
    }
  }

  lemma ReplyFits(s: Session, h: Hist, client: Interest, target: Option<Interest>)
    requires StageOk(s, client, target) && Story(s, h) && HistOk(h) && s.writeBuf != []
    ensures var chosen := if h.greeting.Some? then DecideGreeting(h.greeting.value.bytes, h.greeting.value.users) else GreetingWait;
            var checked := if h.auth.Some? then DecideAuth(h.auth.value.bytes, h.auth.value.users) else AuthWait;
            || (h.auth.None? && h.replies == [] && chosen.GreetingChoose? && s.writeBuf == [5, chosen.chosen])
            || (h.replies == [] && checked.AuthAccept? && s.stage == Request && s.writeBuf == [1, 0])
            || (h.replies == [] && checked.AuthReject? && s.stage == Closing && s.writeBuf == [1, 1])
            || (|h.replies| == 1 && s.stage in {Relay, Closing} && (s.stage == Relay <==> h.succeeded)
                && s.writeBuf == [5, h.replies[0], 0, 1, 0, 0, 0, 0, 0, 0])
  {
    hide DecideGreeting, DecideAuth, Flow, Addresses, AllFailed, EndsWith;
    match s.stage {
      case Auth =>
      case Request =>
      case Relay =>
      case Closing =>
      case _ =>
    }
  }

  // ---------------------------------------------------------------- accounting

  /** The counters: live sessions, sessions ever accepted, CONNECT replies by outcome, and bytes sent in the relay.
      A session gets at most one CONNECT reply. */
  lemma CountersAreExact(events: seq<Event>)
    ensures var w := Run(START, events);
            && w.active == |w.heap| == w.metrics.concurrent
            && w.metrics.historical == |w.hist|
            && w.metrics.successful == Sum(w.hist, Successes) && w.metrics.failed == Sum(w.hist, Failures)
            && w.metrics.upstream == Sum(w.hist, Upstream) && w.metrics.downstream == Sum(w.hist, Downstream)
            && (forall sid | 0 <= sid < |w.hist| :: |w.hist[sid].replies| <= 1)
  {
    Reachable(events);
    var w := Run(START, events);
    assert Meter(w.metrics, Successes) == Sum(w.hist, Successes) && Meter(w.metrics, Failures) == Sum(w.hist, Failures);
    assert Meter(w.metrics, Upstream) == Sum(w.hist, Upstream) && Meter(w.metrics, Downstream) == Sum(w.hist, Downstream);
    forall sid | 0 <= sid < |w.hist| ensures |w.hist[sid].replies| <= 1 {
      assert HistOk(w.hist[sid]);
    }
  }

  /** A session writes at most one access record: exactly when its request was answered and named a destination, with
      the user it was admitted as, that destination and port, and whether the connection succeeded. */
  lemma AccessRecordsAreTrue(events: seq<Event>, sid: Sid)
    ensures var w := Run(START, events);
            sid < |w.hist| ==>
              var h := w.hist[sid];
              && |h.records| <= 1
              && (h.records != [] <==>
                    h.request.Some? && h.replies != []
                    && !(h.request.value.atyp == ATYP_DOMAIN && CString(h.request.value.address) == []))
              && (h.records != [] ==>
                    && Admitted(h) && h.records[0].user == AdmittedName(h) && h.records[0].success == h.succeeded
                    && h.records[0].port == h.request.value.port
                    && h.records[0].destination == if h.request.value.atyp == ATYP_DOMAIN
                                                   then Named(CString(h.request.value.address))
                                                   else Numeric(h.request.value.address))
  {
    HistFacts(events, sid);
    hide Run, OwnAnswer, Admitted, AdmittedName, Addresses, AllFailed, EndsWith;
  }
}
