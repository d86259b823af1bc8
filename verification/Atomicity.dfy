/** Why handling a lookup's answer may be taken as one step although only its beginning holds the job's lock: all of it
    commutes with whatever any resolver thread does meanwhile. */
module Atomicity {
  import opened Basics
  import opened Socks5
  import opened Proxy
  import opened Invariant
  import opened Isolation
  import opened Handlers
  import opened Shutdown
  import opened Ownership

  /** World `w` with the jobs, lists, threads, lookups and notifications of `x`. */
  ghost function With(w: World, x: World): World {
    w.(jobs := x.jobs, lists := x.lists, threads := x.threads, queue := x.queue, origins := x.origins)
  }

  // ---------------------------------------------------------------- what touches none of them

  lemma WithKeeps(w: World, x: World, sid: Sid)
    ensures var r := With(w, x);
            r.heap == w.heap && r.open == w.open && r.table == w.table && r.lists == x.lists && r.jobs == x.jobs
    ensures Past(With(w, x), sid) == Past(w, sid)
  {
  }

  lemma PutWith(w: World, x: World, sid: Sid, s: Session)
    ensures Put(With(w, x), sid, s) == With(Put(w, sid, s), x)
  {
  }

  lemma RememberWith(w: World, x: World, sid: Sid, h: Hist)
    ensures Remember(With(w, x), sid, h) == With(Remember(w, sid, h), x)
  {
    if sid < |w.hist| {} else {}
  }

  lemma StoreWith(w: World, x: World, sid: Sid, s: Session, h: Hist)
    ensures Put(Remember(With(w, x), sid, h), sid, s) == With(Put(Remember(w, sid, h), sid, s), x)
  {
    hide Put, Remember, With;
    RememberWith(w, x, sid, h);
    PutWith(Remember(w, sid, h), x, sid, s);
  }

  lemma SetInterestWith(w: World, x: World, fd: Fd, interest: Interest)
    ensures SetInterest(With(w, x), fd, interest) == With(SetInterest(w, fd, interest), x)
  {
    if fd in w.table {} else {}
  }

  lemma LogAccessWith(w: World, x: World, sid: Sid, success: bool)
    ensures LogAccess(With(w, x), sid, success) == With(LogAccess(w, sid, success), x)
  {
    if sid !in w.heap {
      FaultWith(w, x);
    } else {
      hide Put, Remember, With, HasDestination;
      WithKeeps(w, x, sid);
      var s, h := w.heap[sid], Past(w, sid);
      StoreWith(w, x, sid, s.(accessLogged := true), h.(records := h.records + [Record(s.username, s.destination, s.port, success)]));
    }
  }

  /** A failure is counted and remembered. */
  ghost function Counted(w: World, sid: Sid, code: byte): World {
    var h := Past(w, sid);
    Remember(w, sid, h.(replies := h.replies + [code])).(metrics := w.metrics.(failed := w.metrics.failed + 1))
  }

  lemma CountedWith(w: World, x: World, sid: Sid, code: byte)
    ensures Counted(With(w, x), sid, code) == With(Counted(w, sid, code), x)
  {
    if sid < |w.hist| {} else {}
  }

  lemma RefusalIs(w: World, sid: Sid, code: byte)
    requires sid in w.heap
    ensures var w2 := LogAccess(Counted(w, sid, code), sid, false);
            Refuse(w, sid, code, true)
            == if sid !in w2.heap then Fault(w2)
               else Put(w2, sid, w2.heap[sid].(writeBuf := RequestResponse(code), writeOff := 0, stage := Closing))
  {
    hide RequestResponse, LogAccess, Put, Remember;
  }

  lemma LogAccessKeepsSession(w: World, sid: Sid, success: bool)
    requires sid in w.heap
    ensures sid in LogAccess(w, sid, success).heap
  {
    if w.heap[sid].accessLogged || !HasDestination(w.heap[sid]) {} else {}
  }

  lemma RefuseWith(w: World, x: World, sid: Sid, code: byte)
    requires sid in w.heap
    ensures Refuse(With(w, x), sid, code, true) == With(Refuse(w, sid, code, true), x)
  {
    hide Refuse, RequestResponse, LogAccess, Counted, Put, With;
    WithKeeps(w, x, sid);
    RefusalIs(w, sid, code);
    RefusalIs(With(w, x), sid, code);
    CountedWith(w, x, sid, code);
    var w1 := Counted(w, sid, code);
    LogAccessWith(w1, x, sid, false);
    assert sid in w1.heap by { CountedHeap(w, sid, code); }
    LogAccessKeepsSession(w1, sid, false);
    var w2 := LogAccess(w1, sid, false);
    WithKeeps(w2, x, sid);
    PutWith(w2, x, sid, w2.heap[sid].(writeBuf := RequestResponse(code), writeOff := 0, stage := Closing));
  }

  lemma CountedHeap(w: World, sid: Sid, code: byte)
    ensures Counted(w, sid, code).heap == w.heap
  {
  }

  lemma AttemptFailedWith(w: World, x: World, sid: Sid, address: Address, errno: int)
    requires sid in w.heap
    ensures AttemptFailed(With(w, x), sid, address, errno)
            == var r := AttemptFailed(w, sid, address, errno); Started(With(r.w, x), r.ok)
  {
    hide Put, Remember, With;
    WithKeeps(w, x, sid);
    var h := Past(w, sid);
    StoreWith(w, x, sid, w.heap[sid].(lastError := errno), h.(tried := h.tried + [Try(address, Failed(errno))]));
  }

  lemma LaunchedWith(w: World, x: World, sid: Sid, fd: Fd, address: Address)
    requires sid in w.heap
    ensures Launched(With(w, x), sid, fd, address) == With(Launched(w, sid, fd, address), x)
  {
    if sid < |w.hist| {} else {}
  }

  lemma StartConnectionWith(w: World, x: World, sid: Sid, address: Address, attempt: Attempt)
    requires sid in w.heap
    ensures StartConnection(With(w, x), sid, address, attempt)
            == var r := StartConnection(w, sid, address, attempt); Started(With(r.w, x), r.ok)
  {
    hide StartConnection, AttemptFailed, Launched, With;
    WithKeeps(w, x, sid);
    ConnectionStarts(w, sid, address, attempt);
    ConnectionStarts(With(w, x), sid, address, attempt);
    AttemptFailedWith(w, x, sid, address, attempt.errno);
    PutWith(w, x, sid, w.heap[sid].(targetFd := None));
    AttemptFailedWith(Abandoned(w, sid), x, sid, address, attempt.errno);
    if attempt.Underway? { LaunchedWith(w, x, sid, FreshFd(w.open, attempt.fd), address); }
  }

  lemma AttemptFailedLists(w: World, sid: Sid, address: Address, errno: int)
    requires sid in w.heap
    ensures var r := AttemptFailed(w, sid, address, errno).w;
            r.lists == w.lists && sid in r.heap && r.heap[sid].addresses == w.heap[sid].addresses
  {
  }

  lemma StartConnectionLists(w: World, sid: Sid, address: Address, attempt: Attempt)
    requires sid in w.heap
    ensures var r := StartConnection(w, sid, address, attempt).w;
            r.lists == w.lists && sid in r.heap && r.heap[sid].addresses == w.heap[sid].addresses
  {
    hide StartConnection, AttemptFailed;
    ConnectionStarts(w, sid, address, attempt);
    AttemptFailedLists(w, sid, address, attempt.errno);
    AttemptFailedLists(Abandoned(w, sid), sid, address, attempt.errno);
  }

  lemma {:induction false} StartNextWith(w: World, x: World, sid: Sid, attempts: seq<Attempt>)
    requires sid in w.heap
    requires var list := w.heap[sid].addresses; list.Some? ==> (list.value in x.lists <==> list.value in w.lists)
    ensures StartNext(With(w, x), sid, attempts) == var r := StartNext(w, sid, attempts); Started(With(r.w, x), r.ok)
    ensures sid in StartNext(w, sid, attempts).w.heap
    decreases |w.heap[sid].cursor|
  {
    hide StartConnection, With;
    var s := w.heap[sid];
    WithKeeps(w, x, sid);
    if s.cursor == [] {
    } else if s.addresses.None? || s.addresses.value !in w.lists {
      FaultWith(w, x);
    } else {
      var w1 := Put(w, sid, s.(cursor := s.cursor[1..]));
      PutWith(w, x, sid, s.(cursor := s.cursor[1..]));
      assert w1.heap[sid].addresses == s.addresses && w1.lists == w.lists;
      hide Put;
      if Usable(s.cursor[0]) {
        var r := StartConnection(w1, sid, s.cursor[0], FirstAttempt(attempts));
        StartConnectionWith(w1, x, sid, s.cursor[0], FirstAttempt(attempts));
        StartConnectionLists(w1, sid, s.cursor[0], FirstAttempt(attempts));
        if !r.ok { StartNextWith(r.w, x, sid, if attempts == [] then [] else attempts[1..]); }
      } else {
        StartNextWith(w1, x, sid, attempts);
      }
    }
  }

  lemma FaultWith(w: World, x: World)
    ensures Fault(With(w, x)) == With(Fault(w), x)
  {
  }

  lemma AfterStartWith(w: World, x: World, ok: bool, fd: Fd, sid: Sid)
    requires sid in w.heap
    ensures AfterStart(Started(With(w, x), ok), fd, sid) == With(AfterStart(Started(w, ok), fd, sid), x)
  {
    hide Refuse, SetInterest, With;
    WithKeeps(w, x, sid);
    var code := ReplyForErrno(w.heap[sid].lastError);
    RefuseWith(w, x, sid, code);
    SetInterestWith(w, x, fd, NOOP);
    SetInterestWith(Refuse(w, sid, code, true), x, fd, WRITE);
  }

  // ---------------------------------------------------------------- the handler

  /** What is done with an answer outside the lock. */
  lemma TakeAnswerWith(w: World, x: World, fd: Fd, sid: Sid, j: Jid, io: Io)
    requires sid in w.heap && w.heap[sid].job == Some(j) && j in w.jobs && j in x.jobs && x.jobs[j] == w.jobs[j]
    requires j in w.lists <==> j in x.lists
    requires j in w.lists ==> x.lists[j] == w.lists[j]
    requires w.jobs[j].result ==> j in w.lists
    ensures TakeAnswer(With(w, x), fd, sid, j, io) == With(TakeAnswer(w, fd, sid, j, io), FreeJob(x, j))
  {
    hide Refuse, SetInterest, StartNext, AfterStart, Filter, With, FreeJob, Remember, Put;
    var s, job, y := w.heap[sid], w.jobs[j], FreeJob(x, j);
    var w1 := Put(FreeJob(w, j), sid, s.(job := None));
    WithKeeps(w, x, sid);
    FreedWith(w, x, sid, j, s.(job := None));
    WithKeeps(w1, y, sid);
    if job.status != 0 || !job.result {
      var code := ReplyForGaiError(job.status);
      RefuseWith(w1, y, sid, code);
      SetInterestWith(Refuse(w1, sid, code, true), y, fd, WRITE);
    } else {
      var h := Past(w1, sid);
      var h1 := h.(resolved := Some(j), candidates := Filter(w1.lists[j]));
      var s1 := s.(job := None, addresses := Some(j), cursor := w1.lists[j]);
      StoreWith(w1, y, sid, s1, h1);
      var w2 := Put(Remember(w1, sid, h1), sid, s1);
      assert sid in w2.heap && w2.heap[sid] == s1 && w2.lists == w1.lists by { Stored(w1, sid, h1, s1); }
      StartNextWith(w2, y, sid, io.attempts);
      var r := StartNext(w2, sid, io.attempts);
      AfterStartWith(r.w, y, r.ok, fd, sid);
    }
  }

  lemma Stored(w: World, sid: Sid, h: Hist, s: Session)
    ensures var r := Put(Remember(w, sid, h), sid, s); sid in r.heap && r.heap[sid] == s && r.lists == w.lists
  {
  }

  lemma FreedWith(w: World, x: World, sid: Sid, j: Jid, s: Session)
    requires j in w.jobs && j in x.jobs
    ensures Put(FreeJob(With(w, x), j), sid, s) == With(Put(FreeJob(w, j), sid, s), FreeJob(x, j))
    ensures var w1 := Put(FreeJob(w, j), sid, s); sid in w1.heap && w1.heap[sid] == s && w1.lists == w.lists
    ensures FreeJob(x, j).lists == x.lists
  {
  }

  lemma TakeAnswerLookups(w: World, fd: Fd, sid: Sid, j: Jid, io: Io)
    requires sid in w.heap && w.heap[sid].job == Some(j) && j in w.jobs && (w.jobs[j].result ==> j in w.lists)
    ensures var r := TakeAnswer(w, fd, sid, j, io); r == With(r, FreeJob(w, j))
  {
    hide TakeAnswer;
    TakeAnswerWith(w, w, fd, sid, j, io);
    assert With(w, w) == w;
  }

  // ---------------------------------------------------------------- threads

  /** What a thread needs to find. */
  ghost predicate CanRun(w: World, i: Jid) {
    i in w.threads && !w.threads[i].Notify? ==>
      i in w.jobs && i < |w.origins| && (w.threads[i].Discard? && w.threads[i].result ==> i in w.lists)
  }

  lemma LookupReturnsWith(w: World, x: World, i: Jid, answer: Answer)
    requires i in x.jobs && i < |x.origins|
    ensures LookupReturns(With(w, x), i, answer) == With(w, LookupReturns(x, i, answer))
  {
  }

  lemma PublishingWith(w: World, x: World, i: Jid, status: int, result: bool)
    requires i in x.jobs
    ensures Publishing(With(w, x), i, status, result) == With(w, Publishing(x, i, status, result))
  {
  }

  lemma NotifyWith(w: World, x: World, i: Jid, fd: Fd)
    ensures With(w, x).(queue := [fd] + x.queue, threads := x.threads - {i})
            == With(w, x.(queue := [fd] + x.queue, threads := x.threads - {i}))
  {
  }

  lemma DiscardedWith(w: World, x: World, i: Jid, result: bool)
    ensures Discarded(With(w, x), i, result) == With(w, Discarded(x, i, result))
  {
  }

  lemma ThreadWith(w: World, x: World, i: Jid, answer: Answer)
    requires CanRun(x, i)
    ensures ThreadStep(With(w, x), i, answer) == With(w, ThreadStep(x, i, answer))
  {
    hide LookupReturns, Publishing, FreeJob, FreeList, Discarded, With;
    WithLookups(w, x);
    if i in x.threads {
      match x.threads[i] {
        case Lookup => LookupReturnsWith(w, x, i, answer);
        case Publish(status, result) => PublishingWith(w, x, i, status, result);
        case Notify(fd) => NotifyWith(w, x, i, fd);
        case Discard(result) =>
          DiscardIs(x, i, answer);
          DiscardIs(With(w, x), i, answer);
          hide ThreadStep;
          DiscardedWith(w, x, i, result);
      }
    }
  }

  lemma WithLookups(w: World, x: World)
    ensures var r := With(w, x);
            r.jobs == x.jobs && r.lists == x.lists && r.threads == x.threads && r.queue == x.queue && r.origins == x.origins
  {
  }

  lemma FreeingLookup(w: World, j: Jid, i: Jid, answer: Answer)
    requires j in w.jobs && i in w.jobs && i != j && i < |w.origins|
    ensures FreeJob(LookupReturns(w, i, answer), j) == LookupReturns(FreeJob(w, j), i, answer)
  {
  }

  lemma FreeingPublished(w: World, j: Jid, i: Jid, status: int, result: bool)
    requires j in w.jobs && i in w.jobs && i != j
    ensures FreeJob(Publishing(w, i, status, result), j) == Publishing(FreeJob(w, j), i, status, result)
  {
    var job := w.jobs[i].(result := result, status := status, done := true);
    assert w.jobs[i := job] - {j} == (w.jobs - {j})[i := job];
  }

  lemma FreeingNotified(w: World, j: Jid, i: Jid, fd: Fd)
    requires j in w.jobs
    ensures FreeJob(w.(queue := [fd] + w.queue, threads := w.threads - {i}), j)
            == FreeJob(w, j).(queue := [fd] + w.queue, threads := w.threads - {i})
  {
  }

  lemma FreeJobKeeps(w: World, j: Jid)
    ensures var r := FreeJob(w, j);
            r.threads == w.threads && r.queue == w.queue && r.lists == w.lists && r.origins == w.origins
    ensures forall i | i in w.jobs && i != j :: i in FreeJob(w, j).jobs
  {
    if j in w.jobs {} else {}
  }

  lemma FreeingCommutes(w: World, j: Jid, i: Jid, answer: Answer)
    requires j in w.jobs && (j in w.threads ==> w.threads[j].Notify?) && CanRun(w, i)
    ensures FreeJob(ThreadStep(w, i, answer), j) == ThreadStep(FreeJob(w, j), i, answer)
  {
    hide LookupReturns, Publishing, FreeJob, FreeList, Discarded;
    FreeJobKeeps(w, j);
    if i in w.threads {
      match w.threads[i] {
        case Lookup => FreeingLookup(w, j, i, answer);
        case Publish(status, result) => FreeingPublished(w, j, i, status, result);
        case Notify(fd) => FreeingNotified(w, j, i, fd);
        case Discard(result) =>
          DiscardIs(w, i, answer);
          DiscardIs(FreeJob(w, j), i, answer);
          hide ThreadStep;
          DiscardCommutes(w, j, i, result);
      }
    }
  }

  lemma DiscardCommutes(w: World, j: Jid, i: Jid, result: bool)
    requires j in w.jobs && i != j
    ensures FreeJob(Discarded(w, i, result), j) == Discarded(FreeJob(w, j), i, result)
  {
    assert w.jobs - {i} - {j} == w.jobs - {j} - {i};
  }

  /** Job `j` and its list are the same in `x`, which differs from `w` in lookups only. */
  ghost predicate Untouched(w: World, x: World, j: Jid) {
    && j in w.jobs && j in x.jobs && x.jobs[j] == w.jobs[j] && (j in x.lists <==> j in w.lists)
    && (j in w.lists ==> x.lists[j] == w.lists[j]) && x == With(w, x)
  }

  lemma LookupUntouched(w: World, j: Jid, i: Jid, answer: Answer)
    requires j in w.jobs && i in w.jobs && i != j && i < |w.origins|
    ensures Untouched(w, LookupReturns(w, i, answer), j)
  {
  }

  lemma PublishedUntouched(w: World, j: Jid, i: Jid, status: int, result: bool)
    requires j in w.jobs && i in w.jobs && i != j
    ensures Untouched(w, Publishing(w, i, status, result), j)
  {
  }

  lemma NotifiedUntouched(w: World, j: Jid, i: Jid, fd: Fd)
    requires j in w.jobs
    ensures Untouched(w, w.(queue := [fd] + w.queue, threads := w.threads - {i}), j)
  {
  }

  lemma DiscardedUntouched(w: World, j: Jid, i: Jid, result: bool)
    requires j in w.jobs && i != j
    ensures Untouched(w, Discarded(w, i, result), j)
  {
  }

  /** A thread leaves a finished job and its list alone, and touches nothing but lookups. */
  lemma FinishedJobsStay(w: World, j: Jid, i: Jid, answer: Answer)
    requires j in w.jobs && (j in w.threads ==> w.threads[j].Notify?) && CanRun(w, i)
    ensures Untouched(w, ThreadStep(w, i, answer), j)
  {
    if i in w.threads {
      hide LookupReturns, Publishing, FreeJob, FreeList, Discarded, Untouched;
      match w.threads[i] {
        case Lookup => LookupUntouched(w, j, i, answer);
        case Publish(status, result) => PublishedUntouched(w, j, i, status, result);
        case Notify(fd) => NotifiedUntouched(w, j, i, fd);
        case Discard(result) => DiscardIs(w, i, answer); DiscardedUntouched(w, j, i, result);
      }
    }
  }

  /** In every reachable state, a thread step before taking the answer of a finished job, in the middle of it (once the
      job is freed), or after it leads to the same world. */
  lemma AnsweringCommutesWithThreads(events: seq<Event>, steps: seq<Winding>, fd: Fd, sid: Sid, j: Jid, io: Io,
                                     i: Jid, answer: Answer)
    ensures var w := Reached(events, steps);
            SessionOwnsJob(w, j, sid) ==>
              && TakeAnswer(ThreadStep(w, i, answer), fd, sid, j, io) == ThreadStep(TakeAnswer(w, fd, sid, j, io), i, answer)
              && FreeJob(ThreadStep(w, i, answer), j) == ThreadStep(FreeJob(w, j), i, answer)
  {
    hide Reached, TakeAnswer, ThreadStep, FreeJob, HistOk, Linkage, Accounts;
    ReachedCore(events, steps);
    var w := Reached(events, steps);
    if SessionOwnsJob(w, j, sid) {
      OwnedJobIsFinished(w, j, sid, i);
      hide Resolution;
      var x := ThreadStep(w, i, answer);
      FinishedJobsStay(w, j, i, answer);
      TakeAnswerWith(w, x, fd, sid, j, io);
      TakeAnswerLookups(w, fd, sid, j, io);
      FreeingCommutes(w, j, i, answer);
      StillRuns(w, j, i);
      ThreadWith(TakeAnswer(w, fd, sid, j, io), FreeJob(w, j), i, answer);
    }
  }

  lemma StillRuns(w: World, j: Jid, i: Jid)
    requires j in w.jobs && (j in w.threads ==> w.threads[j].Notify?) && CanRun(w, i)
    ensures CanRun(FreeJob(w, j), i)
  {
  }

  lemma OwnedJobIsFinished(w: World, j: Jid, sid: Sid, i: Jid)
    requires Resolution(w) && SessionOwnsJob(w, j, sid)
    ensures j in w.threads ==> w.threads[j].Notify?
    ensures w.jobs[j].result ==> j in w.lists
    ensures CanRun(w, i)
  {
    assert OwnRequests(w, sid) && Phase(w, j) && Waiting(w, j);
    if i in w.threads { assert Phase(w, i); }
  }
}
