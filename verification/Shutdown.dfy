/** Winding down: selector_destroy unregisters descriptors, in whatever order they come up, while resolver threads go on.
    Sessions that wait for a lookup are closed only here, so this is where jobs lose their session. */
module Shutdown {
  import opened Proxy
  import opened Invariant
  import opened Teardown
  import opened Structure
  import opened Handlers
  import opened Events

  lemma DetachedKeepsCore(w: World, sid: Sid)
    requires Core(w) && sid in w.heap && w.heap[sid].targetFd.Some?
    ensures Core(Detached(w, sid))
  {
    var w' := Detached(w, sid);
    assert Registered(w, w.heap[sid].targetFd.value, TargetItem, sid) by { assert Anchored(w, sid); }
    DetachedKeepsLinkage(w, sid);
    DetachedShape(w, sid);
    SameLookupsKeep(w, w');
    assert |w'.heap| == |w.heap| by { assert |w.heap| == |w.heap.Keys| && |w'.heap| == |w'.heap.Keys|; }
  }

  /** Unregistering any descriptor, of either kind, takes it away and leaves everything else consistent. */
  lemma UnregisterKeepsCore(w: World, fd: Fd)
    requires Core(w)
    ensures var r := Unregister(w, fd);
            && Core(r) && r.table.Keys <= w.table.Keys - {fd} && r.heap.Keys <= w.heap.Keys
            && r.threads == w.threads && r.hist == w.hist && r.origins == w.origins
  {
    if fd in w.table {
      assert Owned(w, fd);
      var sid := w.table[fd].sid;
      if w.table[fd].kind == ClientItem {
        ClientCloseIs(w, sid, fd, w);
        hide Core, Unregister;
        WithoutKeepsCore(w, sid);
      } else {
        assert fd in w.open;
        UnregisterTargetIs(w, sid, fd);
        hide Core, Unregister;
        DetachedKeepsCore(w, sid);
      }
    }
  }

  lemma ThreadKeepsCore(w: World, j: Jid, answer: Answer)
    requires Core(w)
    ensures var r := ThreadStep(w, j, answer);
            Core(r) && r.table == w.table && r.heap == w.heap && r.hist == w.hist
  {
    hide ThreadStep, Linkage, Resolution, HistOk;
    ThreadStepLookups(w, j, answer);
    SameDescriptorsKeep(w, ThreadStep(w, j, answer));
  }

  lemma WindKeepsCore(w: World, step: Winding)
    requires Core(w)
    ensures var r := Wind(w, step);
            && Core(r) && r.hist == w.hist && r.heap.Keys <= w.heap.Keys
            && r.table.Keys <= w.table.Keys - (if step.Unregisters? then {step.fd} else {})
  {
    hide Core, Unregister, ThreadStep;
    match step {
      case Unregisters(fd) => UnregisterKeepsCore(w, fd);
      case Resolves(j, answer) => ThreadKeepsCore(w, j, answer);
    }
  }

  /** Everything but the stages stays consistent, whatever is unregistered and whichever threads run. */
  lemma {:induction false} WindDownKeepsCore(w: World, steps: seq<Winding>)
    requires Core(w)
    ensures var r := WindDown(w, steps);
            && Core(r) && r.hist == w.hist && r.heap.Keys <= w.heap.Keys && r.table.Keys <= w.table.Keys
            && forall fd | Unregisters(fd) in steps :: fd !in r.table
    decreases |steps|
  {
    hide Core, Wind;
    if steps != [] {
      var init, last := steps[..|steps| - 1], steps[|steps| - 1];
      WindDownKeepsCore(w, init);
      WindKeepsCore(WindDown(w, init), last);
      forall fd | Unregisters(fd) in steps ensures fd !in WindDown(w, steps).table {
        if Unregisters(fd) in init {} else { assert last == Unregisters(fd); }
      }
    }
  }

  /** The states of the theorems about ownership: any run, then any winding down. */
  ghost function Reached(events: seq<Event>, steps: seq<Winding>): World {
    WindDown(Run(START, events), steps)
  }

  lemma ReachedCore(events: seq<Event>, steps: seq<Winding>)
    ensures Core(Reached(events, steps))
  {
    hide Run, WindDown, Core, Awaited, SessionOk;
    Reachable(events);
    assert Core(Run(START, events)) by { InvHasCore(Run(START, events)); }
    WindDownKeepsCore(Run(START, events), steps);
  }

  lemma InvHasCore(w: World)
    requires Inv(w)
    ensures Core(w)
  {
  }

  // ---------------------------------------------------------------- threads end

  /** How many steps a resolver thread has left. */
  ghost function StepsLeft(w: World, j: Jid): nat {
    if j !in w.threads then 0
    else match w.threads[j]
      case Lookup => 3
      case Publish(_, _) => 2
      case _ => 1
  }

  /** How often thread `j` gets to run. */
  ghost function Turns(steps: seq<Winding>, j: Jid): nat
    decreases |steps|
  {
    if steps == [] then 0
    else
      var last := steps[|steps| - 1];
      Turns(steps[..|steps| - 1], j) + if last.Resolves? && last.j == j then 1 else 0
  }

  ghost function Less(a: nat, b: nat): nat {
    if a > b then a - b else 0
  }

  lemma ThreadsHaveJobs(w: World, j: Jid)
    requires Resolution(w) && j in w.threads && !w.threads[j].Notify?
    ensures j in w.jobs && j < |w.origins| && (w.threads[j].Discard? && w.threads[j].result ==> j in w.lists)
  {
    assert Phase(w, j);
  }

  /** Where the threads stand after a turn of thread `i`. */
  ghost function Moved(w: World, i: Jid, answer: Answer): map<Jid, Thread>
    requires i in w.threads && i in w.jobs
  {
    match w.threads[i]
    case Lookup => w.threads[i := Publish(answer.status, answer.status == 0 && answer.addresses != [])]
    case Publish(_, result) => w.threads[i := if w.jobs[i].state.Some? then Notify(w.jobs[i].fd) else Discard(result)]
    case _ => w.threads - {i}
  }

  lemma TurnMoves(w: World, i: Jid, answer: Answer)
    requires i in w.threads && !w.threads[i].Notify? && i in w.jobs && i < |w.origins|
    ensures ThreadStep(w, i, answer).threads == Moved(w, i, answer)
  {
    if w.threads[i].Discard? {} else { hide FreeJob, FreeList; }
  }

  /** A turn brings a thread one step closer to its end and leaves the others where they are. */
  lemma TurnCounts(w: World, i: Jid, answer: Answer, j: Jid)
    requires Resolution(w)
    ensures StepsLeft(ThreadStep(w, i, answer), j) == Less(StepsLeft(w, j), if i == j then 1 else 0)
  {
    hide Resolution;
    if i in w.threads {
      if w.threads[i].Notify? {
        assert ThreadStep(w, i, answer).threads == w.threads - {i};
        hide ThreadStep;
      } else {
        hide ThreadStep;
        ThreadsHaveJobs(w, i);
        TurnMoves(w, i, answer);
      }
    }
  }

  lemma {:induction false} TurnsCount(w: World, steps: seq<Winding>, j: Jid)
    requires Core(w)
    ensures StepsLeft(WindDown(w, steps), j) == Less(StepsLeft(w, j), Turns(steps, j))
    decreases |steps|
  {
    hide Linkage, Resolution, Accounts, HistOk, Unregister, ThreadStep;
    if steps != [] {
      var init, last := steps[..|steps| - 1], steps[|steps| - 1];
      TurnsCount(w, init, j);
      WindDownKeepsCore(w, init);
      match last {
        case Unregisters(fd) => UnregisterKeepsCore(WindDown(w, init), fd);
        case Resolves(i, answer) => TurnCounts(WindDown(w, init), i, answer, j);
      }
    }
  }
}
