/** What comes of a request: which SO_ERROR means connected, which attempts follow a failed one, what an answer of the
    resolver leads to, and what the client is told in the end. */
module Outcomes {
  import opened Basics
  import opened Socks5
  import opened Proxy
  import opened Codes
  import opened Invariant
  import opened Local
  import opened RelaySteps
  import opened Structure
  import opened ConnectSteps
  import opened AnswerSteps
  import opened Isolation
  import opened Histories
  import opened Handlers
  import opened Events
  import opened Progress
  import opened Theorems
  import opened Traffic

  // ---------------------------------------------------------------- where a session stands

  /** A session with known candidates that has not succeeded is connecting, or was told why not. */
  ghost predicate Stands(w: World, sid: Sid, h: Hist) {
    && sid in w.heap && Unlogged(Past(w, sid)) == Unlogged(h)
    && (UnderWay(h.tried) ==> w.heap[sid].stage == Connecting && h.replies == [])
    && (!UnderWay(h.tried) ==>
          && w.heap[sid].stage == Closing && |h.replies| == 1 && w.heap[sid].writeBuf == ConnectReply(h.replies[0])
          && exists errno :: EndErrno(h.tried, errno) && h.replies[0] == Listed(ERRNO_REPLIES, errno))
  }

  lemma StandsSomewhere(s: Session, h: Hist, client: Interest, target: Option<Interest>)
    requires StageOk(s, client, target) && Story(s, h) && HistOk(h) && CandidatesKnown(h) && !h.succeeded && h.request.Some?
    requires h.request.value.atyp != ATYP_DOMAIN || h.resolved.Some?
    ensures h.replies == [] ==> s.stage == Connecting && UnderWay(h.tried)
    ensures h.replies != [] ==> s.stage == Closing && |h.replies| == 1 && s.writeBuf == RequestResponse(h.replies[0]) && !UnderWay(h.tried)
  {
    hide DecideGreeting, DecideAuth, DecideRequest, Flow, Addresses, Records, RequestResponse, Filter;
  }

  lemma FindStand(w: World, sid: Sid, h: Hist)
    requires Inv(w) && sid in w.heap && Unlogged(Past(w, sid)) == Unlogged(h) && CandidatesKnown(h) && !h.succeeded
    ensures Stands(w, sid, h)
  {
    hide Inv, StageOk, Story, HistOk, InvExcept, EndErrno, Listed, AllFailed, Addresses;
    Facts(w, sid);
    var h' := w.hist[sid];
    var v := ViewOf(w, sid);
    StandsSomewhere(v.s, h', v.client, v.target);
    FallbackStory(h');
    if h'.replies != [] { RepliesAreSpelt(h'.replies[0]); }
  }

  // ---------------------------------------------------------------- a pending connect

  /** What is left to try. */
  ghost function Remaining(h: Hist): seq<Address> {
    if |h.tried| <= |h.candidates| then h.candidates[|h.tried|..] else []
  }

  lemma RemainingIsAhead(s: Session, h: Hist)
    requires Ahead(s, h)
    ensures Remaining(h) == Filter(s.cursor)
  {
    assert |Addresses(h.tried)| == |h.tried|;
  }

  ghost function ErrorOf(e: SoError): int {
    if e.Reported? then e.error else e.errno
  }

  /** The history after a failed connect: the pending attempt is marked with the error and the next ones are made. Only
      when none of these is under way is the client told. */
  lemma FailedConnect(w: World, sid: Sid, io: Io)
    requires InvExcept(w, sid) && Live(w, sid) && ConnectingView(ViewOf(w, sid)) && io.soError != Reported(0)
    ensures w.heap[sid].targetFd.Some? && Past(w, sid).tried != []
    ensures var fd, h := w.heap[sid].targetFd.value, Past(w, sid);
            var next := Tries(Remaining(h), io.attempts, w.open - {fd});
            var tried := Marked(h.tried, Failed(ErrorOf(io.soError))) + next;
            var h' := Past(TargetWrite(w, fd, sid, io), sid);
            && Unlogged(h') == Unlogged(h.(tried := tried, replies := h'.replies))
            && (UnderWay(next) ==> h'.replies == h.replies)
  {
    hide InvExcept, ConnectingView, Unregister, MarkLastTry, TargetFailed, StartNext, Put, Marked, Trying, Tries;
    var v := ViewOf(w, sid);
    var s, h := v.s, Past(w, sid);
    ConnectingIdle(v);
    assert Remaining(h) == Filter(s.cursor) by { ConnectingIsAhead(v); RemainingIsAhead(s, h); }
    var errno := ErrorOf(io.soError);
    AttemptOver(w, sid, errno);
    AttemptOverPast(w, sid, errno, sid);
    var r := Unregister(Put(MarkLastTry(w, sid, Failed(errno)), sid, s.(lastError := errno)), s.targetFd.value);
    OpenIsRegistered(r, sid);
    CursorIsBacked(r, sid);
    StartNextPast(r, sid, io.attempts, sid);
    TargetFailedPast(StartNext(r, sid, io.attempts), sid, sid);
    hide Past;
  }

  lemma ConnectingIsAhead(v: View)
    requires ConnectingView(v)
    ensures Ahead(v.s, v.h)
  {
    hide HistOk;
  }

  lemma StartedConnect(w: World, sid: Sid, io: Io)
    requires InvExcept(w, sid) && Live(w, sid) && ConnectingView(ViewOf(w, sid)) && io.soError == Reported(0)
    ensures w.heap[sid].targetFd.Some? && Past(w, sid).tried != []
    ensures var h := Past(w, sid); var r := TargetWrite(w, w.heap[sid].targetFd.value, sid, io);
            && sid in r.heap && r.heap[sid].stage == Relay && r.heap[sid].writeBuf == ConnectReply(0) && r.heap[sid].writeOff == 0
            && r.heap[sid].targetFd == w.heap[sid].targetFd
            && Unlogged(Past(r, sid)) == Unlogged(h.(tried := Marked(h.tried, Connected), replies := h.replies + [0], succeeded := true))
  {
    hide InvExcept, ConnectingView, TargetConnected, Marked, HistOk, MetersMatch;
    var v := ViewOf(w, sid);
    ConnectingIdle(v);
    SucceededMoves(v);
    TargetConnectedIs(w, sid);
    CommitPast(w, sid, Succeeded(v), sid);
    assert SameTies(v, Succeeded(v)) by { MovedTies(v, Succeeded(v)); }
    CommitView(w, sid, Succeeded(v));
    RepliesAreSpelt(0);
    hide Commit, Moved, Settled;
    if HasDestination(v.s) {} else {}
  }

  /** The verdict on a pending connect, in every run: the client is told "succeeded" and the relay begins exactly when the
      socket reports no error. Any other report is the outcome of that attempt; the addresses left are then tried in turn,
      and only when none of them gets under way is the client refused, with the code of the last error. */
  lemma PendingConnects(events: seq<Event>, fd: Fd, io: Io, sid: Sid)
    ensures var w := Run(START, events); var r := Step(w, Ready(fd, false, true, io, io));
            sid in w.heap && w.heap[sid].stage == Connecting && w.heap[sid].targetFd == Some(fd) ==>
              var h := Past(w, sid);
              && h.tried != []
              && var n := |h.tried| - 1; var error := if io.soError.Reported? then io.soError.error else io.soError.errno;
              && (Past(r, sid).succeeded <==> io.soError == Reported(0))
              && (io.soError == Reported(0) ==>
                    && sid in r.heap && r.heap[sid].stage == Relay && r.heap[sid].targetFd == Some(fd)
                    && r.heap[sid].writeBuf == ConnectReply(0) && r.heap[sid].writeOff == 0 && Past(r, sid).replies == [0]
                    && Past(r, sid).tried == h.tried[n := Try(h.tried[n].address, Connected)])
              && (io.soError != Reported(0) ==>
                    var next := Tries(Remaining(h), io.attempts, w.open - {fd});
                    Stands(r, sid, h.(tried := h.tried[n := Try(h.tried[n].address, Failed(error))] + next,
                                      replies := Past(r, sid).replies)))
  {
    hide Run, Inv, Awaited, InvExcept, TargetWrite, Tries, Stands;
    Reachable(events);
    var w := Run(START, events);
    if sid in w.heap && w.heap[sid].stage == Connecting && w.heap[sid].targetFd == Some(fd) {
      ConnectingFacts(w, sid, fd);
      assert Step(w, Ready(fd, false, true, io, io)) == TargetWrite(w, fd, sid, io);
      Reachable(events + [Ready(fd, false, true, io, io)]);
      RunOne(START, events, Ready(fd, false, true, io, io));
      hide Step, ConnectingView;
      if io.soError == Reported(0) {
        StartedConnect(w, sid, io);
      } else {
        var r := TargetWrite(w, fd, sid, io);
        FailedConnect(w, sid, io);
        ConnectingForward(w, sid, io);
        FindStand(r, sid, Past(r, sid));
        SameStand(r, sid, Past(r, sid), Past(w, sid).(tried := Past(r, sid).tried, replies := Past(r, sid).replies));
      }
    }
  }

  lemma SameStand(w: World, sid: Sid, h: Hist, h': Hist)
    requires Stands(w, sid, h) && Unlogged(h) == Unlogged(h')
    ensures Stands(w, sid, h')
  {
    hide Listed, EndErrno;
  }

  lemma ConnectingFacts(w: World, sid: Sid, fd: Fd)
    requires Inv(w) && sid in w.heap && w.heap[sid].stage == Connecting && w.heap[sid].targetFd == Some(fd)
    ensures InvExcept(w, sid) && Live(w, sid) && ConnectingView(ViewOf(w, sid)) && sid < |w.hist|
    ensures fd in w.table && w.table[fd].sid == sid && w.table[fd].kind == TargetItem && w.table[fd].interest == WRITE
    ensures CandidatesKnown(w.hist[sid]) && !w.hist[sid].succeeded && w.hist[sid].replies == []
  {
    hide Inv, InvExcept, HistOk;
    Facts(w, sid);
    Whose(w, fd, sid);
    assert Good(ViewOf(w, sid)) by { hide Settled; SettledIsGood(w, sid); }
  }

  // ---------------------------------------------------------------- lookups

  lemma AnswerPast(w: World, sid: Sid, j: Jid, io: Io)
    requires Live(w, sid) && w.heap[sid].job == Some(j) && j in w.jobs && w.open == w.table.Keys
    requires w.jobs[j].result ==> w.jobs[j].status == 0 && j in w.lists
    requires w.heap[sid].addresses.None? && w.heap[sid].cursor == []
    ensures var r := TakeAnswer(w, w.heap[sid].clientFd.value, sid, j, io); var h := Past(w, sid); var h' := Past(r, sid);
            if !w.jobs[j].result then Unlogged(h') == Unlogged(h.(replies := h.replies + [ReplyForGaiError(w.jobs[j].status)]))
            else
              var next := Tries(Filter(w.lists[j]), io.attempts, w.open);
              && Unlogged(h') == Unlogged(h.(resolved := Some(j), candidates := Filter(w.lists[j]),
                                             tried := h.tried + next, replies := h'.replies))
  {
    hide TakeAnswer, Refuse, SetInterest, StartNext, AfterStart, Commit, Tries, Filter;
    var fd := w.heap[sid].clientFd.value;
    TakeAnswerIs(w, sid, j, io);
    var t := Taken(w, sid);
    SamePast(w, t, sid);
    if !w.jobs[j].result {
      var code := ReplyForGaiError(w.jobs[j].status);
      RefusePast(t, sid, code, true, sid);
      SetInterestPast(Refuse(t, sid, code, true), fd, WRITE, sid);
    } else {
      var v1 := Resolved(ViewOf(t, sid), j, w.lists[j]);
      CommitOpen(t, sid, v1);
      CommitPast(t, sid, v1, sid);
      CommitView(t, sid, v1);
      var c := Commit(t, sid, v1);
      assert c.lists == w.lists by { CommitLists(t, sid, v1); }
      StartNextPast(c, sid, io.attempts, sid);
      AfterStartPast(StartNext(c, sid, io.attempts), fd, sid, sid);
    }
    hide Past;
  }

  /** The answer a due notification is about. */
  lemma DueAnswer(w: World, sid: Sid, j: Jid)
    requires InvExcept(w, sid) && Live(w, sid) && w.heap[sid].job == Some(j) && j in w.jobs && w.jobs[j].done
    ensures j < |w.origins| && w.origins[j].answer.Some? && w.origins[j].sid == sid
    ensures var answer := w.origins[j].answer.value;
            && w.jobs[j].status == answer.status && (w.jobs[j].result <==> answer.status == 0 && answer.addresses != [])
            && (w.jobs[j].result ==> j in w.lists && w.lists[j] == answer.addresses)
  {
    hide InvExcept, AsksFor;
    FinishedJob(w, sid, j);
  }

  lemma ResolvingHistory(w: World, sid: Sid)
    requires Live(w, sid) && ResolvingView(ViewOf(w, sid))
    ensures var h := Past(w, sid);
            && h.replies == [] && h.tried == [] && !h.succeeded && h.resolved.None?
            && h.request.Some? && h.request.value.atyp == 3
  {
    hide HistOk, StageOk;
  }

  /** A refused session waits to be told so. */
  lemma RefusedStands(w: World, sid: Sid)
    requires Inv(w) && sid in w.heap && Past(w, sid).replies != [] && !Past(w, sid).succeeded
    ensures w.heap[sid].stage == Closing && w.heap[sid].writeBuf == ConnectReply(Past(w, sid).replies[0])
  {
    hide Inv, InvExcept, DecideGreeting, DecideAuth, DecideRequest, RequestResponse, HistOk;
    Facts(w, sid);
    RepliesAreSpelt(w.hist[sid].replies[0]);
  }

  /** What the first notification in the queue leads to, in every run: a lookup that failed or found no address is refused
      with the code of its status; otherwise the IPv4 and IPv6 entries of its answer are tried in turn. */
  lemma AnswersAreActedOn(events: seq<Event>, io: Io)
    ensures var w := Run(START, events); var r := Step(w, Drain(io));
            w.queue != [] ==>
              && w.queue[0] in w.table && w.table[w.queue[0]].sid in w.heap
              && var sid := w.table[w.queue[0]].sid;
              && w.heap[sid].job.Some? && w.heap[sid].job.value < |w.origins|
              && var j := w.heap[sid].job.value; var h := Past(w, sid);
              && w.origins[j].sid == sid && w.origins[j].answer.Some? && sid in r.heap && r.queue == w.queue[1..]
              && var answer := w.origins[j].answer.value;
              && (answer.status != 0 || answer.addresses == [] ==>
                    && Unlogged(Past(r, sid)) == Unlogged(h.(replies := [Listed(LOOKUP_REPLIES, answer.status)]))
                    && r.heap[sid].stage == Closing && r.heap[sid].writeBuf == ConnectReply(Listed(LOOKUP_REPLIES, answer.status)))
              && (answer.status == 0 && answer.addresses != [] ==>
                    && Picked(answer.addresses, Past(r, sid).candidates)
                    && Stands(r, sid, h.(resolved := Some(j), candidates := Past(r, sid).candidates,
                                         tried := Tries(Past(r, sid).candidates, io.attempts, w.open), replies := Past(r, sid).replies)))
  {
    hide Run, Inv, Awaited, InvExcept, TakeAnswer, DrainOne, Tries, Stands, Listed, Filter, Picked, ResolvingView, Live, ViewOf, Work;
    Reachable(events);
    var w := Run(START, events);
    if w.queue != [] {
      assert Due(w, w.queue[0]) by { FirstIsDue(w); }
      var sid := w.table[w.queue[0]].sid;
      var j := w.heap[sid].job.value;
      var r := DrainOne(w, io);
      Reachable(events + [Drain(io)]);
      RunOne(START, events, Drain(io));
      DrainedHistory(w, sid, j, io);
      hide Step;
      if w.jobs[j].result { FilterPicks(w.lists[j]); FindStand(r, sid, Past(r, sid)); } else { RefusedStands(r, sid); }
      RepliesAreListed(w.jobs[j].status);
      if w.jobs[j].result {
        SameStand(r, sid, Past(r, sid),
                  Past(w, sid).(resolved := Some(j), candidates := Past(r, sid).candidates,
                                tried := Past(r, sid).tried, replies := Past(r, sid).replies));
      }
    }
  }

  lemma FirstIsDue(w: World)
    requires Awaited(w) && w.queue != []
    ensures Due(w, w.queue[0])
  {
  }

  lemma DrainedHistory(w: World, sid: Sid, j: Jid, io: Io)
    requires Inv(w) && Awaited(w) && w.queue != [] && Due(w, w.queue[0]) && w.table[w.queue[0]].sid == sid && w.heap[sid].job == Some(j)
    ensures var r := DrainOne(w, io); var h, h' := Past(w, sid), Past(r, sid);
            && sid in r.heap && r.queue == w.queue[1..] && j < |w.origins| && w.origins[j].sid == sid && w.origins[j].answer.Some?
            && var answer := w.origins[j].answer.value;
            && w.jobs[j].status == answer.status && (w.jobs[j].result <==> answer.status == 0 && answer.addresses != [])
            && (w.jobs[j].result ==> j in w.lists && w.lists[j] == answer.addresses)
            && h.replies == [] && h.tried == [] && !h.succeeded && h.request.Some?
            && if !w.jobs[j].result then Unlogged(h') == Unlogged(h.(replies := [ReplyForGaiError(answer.status)]))
               else Unlogged(h') == Unlogged(h.(resolved := Some(j), candidates := Filter(answer.addresses),
                                                tried := Tries(Filter(answer.addresses), io.attempts, w.open), replies := h'.replies))
  {
    hide Inv, InvExcept, TakeAnswer, DrainOne, Tries, Filter, ResolvingView, Onward;
    DrainIs(w, io);
    ResolvingIffWaiting(w, sid);
    ResolvingGood(w, sid);
    ResolvingHistory(w, sid);
    DueAnswer(w, sid, j);
    AnswerIsReady(w, sid, j);
    var p := Popped(w);
    AnswerPast(p, sid, j, io);
    SamePast(w, p, sid);
    DrainForward(w, io, sid);
    TakeAnswerIsolated(p, w.queue[0], sid, j, io, sid + 1);
    assert [] + [ReplyForGaiError(w.jobs[j].status)] == [ReplyForGaiError(w.jobs[j].status)];
    hide Past, Unlogged;
  }

  /** What a resolver thread brings back is what its lookup returned. */
  lemma LookupsReport(events: seq<Event>, j: Jid, answer: Answer)
    ensures var w := Run(START, events); var r := Step(w, ThreadRuns(j, answer));
            j in w.threads && w.threads[j] == Lookup ==>
              && j < |w.origins| && |r.origins| == |w.origins|
              && r.origins[j] == w.origins[j].(answer := Some(Answer(answer.status, if answer.status == 0 then answer.addresses else [])))
              && (forall i | 0 <= i < |w.origins| && i != j :: r.origins[i] == w.origins[i])
  {
    hide Run, Inv, Awaited, FreeJob, FreeList;
    Reachable(events);
    var w := Run(START, events);
    if j in w.threads && w.threads[j] == Lookup {
      assert j in w.jobs && j < |w.origins| by { ThreadKnowsJob(w, j); }
    }
  }

  /** The rest of a thread's way, in every run: it publishes what it brought back in its job, then puts the descriptor of the
      session that waits in front of the queue, and is done. */
  lemma ThreadsNotify(events: seq<Event>, j: Jid, answer: Answer)
    ensures var w := Run(START, events); var r := Step(w, ThreadRuns(j, answer));
            j in w.threads && !w.threads[j].Lookup? ==>
              && j in w.jobs && j < |w.origins| && w.origins[j].sid in w.heap && w.origins[j].answer.Some?
              && var found := w.origins[j].answer.value; var waiter := w.heap[w.origins[j].sid];
              && (w.threads[j].Publish? ==>
                    && r.jobs == w.jobs[j := w.jobs[j].(done := true, status := found.status,
                                                        result := found.status == 0 && found.addresses != [])]
                    && waiter.clientFd.Some? && r.threads == w.threads[j := Notify(waiter.clientFd.value)] && r.queue == w.queue)
              && (!w.threads[j].Publish? ==>
                    && waiter.clientFd.Some? && r.queue == [waiter.clientFd.value] + w.queue
                    && r.threads == w.threads - {j} && r.jobs == w.jobs)
  {
    hide Run, Inv, Awaited, FreeJob, FreeList;
    Reachable(events);
    var w := Run(START, events);
    if j in w.threads && !w.threads[j].Lookup? { ThreadCarries(w, j); }
  }

  lemma ThreadCarries(w: World, j: Jid)
    requires Inv(w) && Awaited(w) && j in w.threads && !w.threads[j].Lookup?
    ensures j in w.jobs && j < |w.origins| && w.origins[j].sid in w.heap && w.origins[j].answer.Some?
    ensures var found := w.origins[j].answer.value; var waiter := w.heap[w.origins[j].sid];
            && waiter.clientFd == Some(w.jobs[j].fd) && w.jobs[j].state.Some?
            && (w.threads[j].Publish? ==> w.threads[j] == Publish(found.status, found.status == 0 && found.addresses != []))
            && (!w.threads[j].Publish? ==> w.threads[j] == Notify(w.jobs[j].fd))
  {
    hide Linkage, Accounts, HistOk, SessionOk, OwnAnswer, Due;
    assert j in w.jobs;
    assert Waiting(w, j) && Phase(w, j);
  }

  lemma ThreadKnowsJob(w: World, j: Jid)
    requires Inv(w) && j in w.threads && w.threads[j] == Lookup
    ensures j in w.jobs && j < |w.origins|
  {
    assert Phase(w, j);
  }
}
