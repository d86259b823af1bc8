/** The server's handlers as the program runs them: methods that update the selector's table, the sessions with their
    buffers, the resolver jobs, the counters and the queue in place, with the program's loops. Each is proved against the
    handler of the transition system, so what is proved of every run holds of this server.

    Sessions are objects found under their pointers: freeing one takes it out of `sessions`, since what the program may
    not do is use a session it has freed. History and faults are ghost. */
module Server {
  import opened Basics
  import opened Socks5
  import P = Proxy
  import opened Proxy
  import opened Invariant
  import opened Wire
  import opened Sessions
  import opened Events
  import opened Shutdown
  import opened Ownership

  class Server {
    var table: map<Fd, Item>
    var open: set<Fd>
    var sessions: map<Sid, ClientState>
    var jobs: map<Jid, Job>
    var lists: map<Jid, seq<Address>>
    var threads: map<Jid, Thread>
    var queue: seq<Fd>
    var metrics: Metrics
    var active: int
    var nextSession: Sid
    var nextJob: Jid
    ghost var hist: seq<Hist>
    ghost var origins: seq<Origin>
    ghost var staleErrnoTested: bool
    ghost var fault: bool
    ghost var repr: set<object>

    /** Every session is well formed and shares no memory with another. */
    ghost predicate Sound()
      reads this`sessions, this`repr, repr
      ensures Sound() ==> this !in repr
    {
      && this !in repr
      && (forall sid | sid in sessions :: sessions[sid] in repr && sessions[sid].Footprint() <= repr && sessions[sid].Valid())
      && (forall a, b | a in sessions && b in sessions && a != b :: sessions[a].Footprint() !! sessions[b].Footprint())
    }

    /** Pointers are handed out in order. */
    ghost predicate Valid()
      reads this, repr
    {
      Sound() && nextSession == |hist| && nextJob == |origins|
    }

    ghost function Heap(): map<Sid, Session>
      requires Sound()
      reads this`sessions, this`repr, repr
    {
      map sid | sid in sessions :: sessions[sid].Value()
    }

    ghost function Abs(): World
      requires Sound()
      reads this, repr
    {
      World(table, open, Heap(), jobs, lists, threads, queue, metrics, active, hist, origins, staleErrnoTested, fault)
    }

    constructor ()
      ensures Valid() && Abs() == START && fresh(repr)
    {
      table, open, sessions, jobs, lists, threads := map[], {}, map[], map[], map[], map[];
      queue, metrics, active, nextSession, nextJob := [], Metrics(0, 0, 0, 0, 0, 0), 0, 0, 0;
      hist, origins, staleErrnoTested, fault, repr := [], [], false, false, {};
    }

    /** Only the memory of session `sid` changed: the world is the same with the new session in its place. */
    twostate lemma Changed(sid: Sid)
      requires old(Sound()) && sessions == old(sessions) && repr == old(repr) && sid in sessions && sessions[sid].Valid()
      requires forall o | o in repr && o !in sessions[sid].Footprint() :: unchanged(o)
      ensures Sound() && Heap() == old(Heap())[sid := sessions[sid].Value()]
      ensures unchanged(this) ==> Abs() == Put(old(Abs()), sid, sessions[sid].Value())
    {
      hide Heap;
      StaysSound(sid);
      hide Sound, ClientState.Valid;
      assert Heap() == old(Heap())[sid := sessions[sid].Value()] by { HeapChanged(sid); }
    }

    twostate lemma StaysSound(sid: Sid)
      requires old(Sound()) && sessions == old(sessions) && repr == old(repr) && sid in sessions && sessions[sid].Valid()
      requires forall o | o in repr && o !in sessions[sid].Footprint() :: unchanged(o)
      ensures Sound()
      ensures forall x | x in sessions && x != sid ::
                sessions[x].Valid() && old(sessions[x].Valid()) && sessions[x].Value() == old(sessions[x].Value())
    {
      forall x | x in sessions && x != sid ensures sessions[x].Valid() && sessions[x].Value() == old(sessions[x].Value()) {
        assert sessions[x].Footprint() !! sessions[sid].Footprint();
        assert forall o | o in sessions[x].Footprint() :: o in repr && o !in sessions[sid].Footprint();
        hide ClientState.Valid, ClientState.Value, ClientState.Footprint;
      }
    }

    twostate lemma HeapChanged(sid: Sid)
      requires old(Sound()) && Sound() && sessions == old(sessions) && sid in sessions && sessions[sid].Valid()
      requires forall x | x in sessions && x != sid ::
                 sessions[x].Valid() && old(sessions[x].Valid()) && sessions[x].Value() == old(sessions[x].Value())
      ensures Heap() == old(Heap())[sid := sessions[sid].Value()]
    {
      hide Sound, ClientState.Valid, ClientState.Value;
    }

    /** A session was let go of. */
    twostate lemma Forgotten(sid: Sid)
      requires old(Sound()) && sessions == old(sessions) - {sid} && repr == old(repr)
      requires forall o | o in repr :: unchanged(o)
      ensures Sound() && Heap() == old(Heap()) - {sid}
    {
      hide Heap, ClientState.Valid, ClientState.Value;
      OthersStay();
      ForgottenSound(sid);
      HeapForgotten(sid);
    }

    twostate lemma ForgottenSound(sid: Sid)
      requires old(Sound()) && sessions == old(sessions) - {sid} && repr == old(repr)
      requires forall x | x in old(sessions) :: old(sessions)[x].Valid()
      ensures Sound()
    {
    }

    twostate lemma HeapForgotten(sid: Sid)
      requires old(Sound()) && Sound() && sessions == old(sessions) - {sid}
      requires forall x | x in sessions ::
                 sessions[x].Valid() && old(sessions[x].Valid()) && sessions[x].Value() == old(sessions[x].Value())
      ensures Heap() == old(Heap()) - {sid}
    {
      hide Sound, ClientState.Valid, ClientState.Value;
    }

    /** A new session came, in memory of its own. */
    twostate lemma Added(sid: Sid)
      requires old(Sound()) && sid in sessions && sessions == old(sessions)[sid := sessions[sid]]
      requires repr == old(repr) + sessions[sid].Footprint() && sessions[sid].Footprint() !! old(repr) + {this}
      requires sessions[sid].Valid() && forall o | o in old(repr) :: unchanged(o)
      ensures Sound() && Heap() == old(Heap())[sid := sessions[sid].Value()]
    {
      OthersStay();
      AddedSound(sid);
      HeapAdded(sid);
    }

    /** What was not touched is what it was. */
    twostate lemma OthersStay()
      requires old(Sound()) && forall o | o in old(repr) :: unchanged(o)
      ensures forall x | x in old(sessions) ::
                && old(sessions)[x].Valid() && old(sessions[x].Valid()) && old(sessions)[x].Value() == old(sessions[x].Value())
    {
    }

    twostate lemma AddedSound(sid: Sid)
      requires old(Sound()) && sid in sessions && sessions == old(sessions)[sid := sessions[sid]]
      requires repr == old(repr) + sessions[sid].Footprint() && sessions[sid].Footprint() !! old(repr) + {this}
      requires sessions[sid].Valid() && forall x | x in old(sessions) :: old(sessions)[x].Valid()
      ensures Sound()
    {
    }

    twostate lemma HeapAdded(sid: Sid)
      requires old(Sound()) && Sound() && sid in sessions && sessions == old(sessions)[sid := sessions[sid]] && sessions[sid].Valid()
      requires forall x | x in sessions && x != sid ::
                 sessions[x].Valid() && old(sessions[x].Valid()) && sessions[x].Value() == old(sessions[x].Value())
      ensures Heap() == old(Heap())[sid := sessions[sid].Value()]
    {
      hide Sound, ClientState.Valid, ClientState.Value;
    }

    /** What is known of a pointer. */
    lemma Found(sid: Sid)
      requires Sound()
      ensures sid in sessions <==> sid in Abs().heap
      ensures sid in sessions ==>
                && sessions[sid].Footprint() <= repr && sessions[sid].Valid() && Abs().heap[sid] == sessions[sid].Value()
    {
    }

    // -------------------------------------------------------------- memory and descriptors

    /** A use of something freed. */
    ghost method Misuse()
      requires Valid()
      modifies `fault
      ensures Valid() && Abs() == Fault(old(Abs()))
    {
      hide Sound, Heap;
      fault := true;
    }

    ghost method Note(sid: Sid, h: Hist)
      requires Valid()
      modifies `hist
      ensures Valid() && Abs() == Remember(old(Abs()), sid, h)
    {
      hide Sound, Heap;
      if sid < |hist| {
        hist := hist[sid := h];
      }
    }

    /** close */
    method Close(fd: Fd)
      requires Valid()
      modifies `open, `fault
      ensures Valid() && Abs() == CloseFd(old(Abs()), fd)
    {
      hide Sound, Heap;
      if fd in open {
        open := open - {fd};
      } else {
        fault := true;
      }
    }

    /** freeaddrinfo */
    method FreeAddrInfo(l: Jid)
      requires Valid()
      modifies `lists, `fault
      ensures Valid() && Abs() == FreeList(old(Abs()), l)
    {
      hide Sound, Heap;
      if l in lists {
        lists := lists - {l};
      } else {
        fault := true;
      }
    }

    method FreeResolverJob(j: Jid)
      requires Valid()
      modifies `jobs, `fault
      ensures Valid() && Abs() == FreeJob(old(Abs()), j)
    {
      hide Sound, Heap;
      if j in jobs {
        jobs := jobs - {j};
      } else {
        fault := true;
      }
    }

    method Forget(sid: Sid)
      requires Valid()
      modifies `sessions
      ensures Valid() && Abs() == old(Abs()).(heap := old(Abs()).heap - {sid})
    {
      sessions := sessions - {sid};
      Forgotten(sid);
    }

    /** free(state), which must not leave a registration other than `closing` pointing at the session. */
    method FreeState(sid: Sid, ghost closing: Fd)
      requires Valid()
      modifies `sessions, `fault
      ensures Valid() && Abs() == FreeSession(old(Abs()), sid, closing)
    {
      hide Sound, Heap;
      Found(sid);
      fault := fault || sid !in sessions || exists fd | fd in table && fd != closing :: table[fd].sid == sid;
      Forget(sid);
    }

    // -------------------------------------------------------------- the selector

    /** selector_set_interest */
    method SetInterest(fd: Fd, interest: Interest)
      requires Valid()
      modifies `table
      ensures Valid() && Abs() == P.SetInterest(old(Abs()), fd, interest)
    {
      hide Sound, Heap;
      if fd in table {
        table := table[fd := table[fd].(interest := interest)];
      }
    }

    /** selector_unregister_fd; the result says whether `fd` was registered. */
    method Unregister(fd: Fd) returns (found: bool)
      requires Valid()
      modifies this, repr
      ensures Valid() && repr == old(repr) && Abs() == P.Unregister(old(Abs()), fd)
      ensures found == (fd in old(table)) && (!found ==> Abs() == old(Abs()))
      decreases Linked(Abs()), 1
    {
      hide Sound, Heap, P.ClientClose, P.TargetClose;
      if fd !in table {
        return false;
      }
      var item := table[fd];
      if item.kind == ClientItem {
        ClientClose(fd, item.sid);
      } else {
        TargetClose(fd, item.sid);
      }
      Clear(fd);
      return true;
    }

    /** The end of selector_unregister_fd: the item is marked unused. */
    method Clear(fd: Fd)
      requires Valid()
      modifies `table, `fault
      ensures Valid()
      ensures var w := old(Abs()); Abs() == if fd in w.table then w.(table := w.table - {fd}) else Fault(w)
    {
      hide Sound, Heap;
      if fd in table {
        table := table - {fd};
      } else {
        fault := true;
      }
    }

    // -------------------------------------------------------------- closing

    /** client_close */
    method ClientClose(fd: Fd, sid: Sid)
      requires Valid()
      modifies this, repr
      ensures Valid() && repr == old(repr) && Abs() == P.ClientClose(old(Abs()), fd, sid)
      decreases Linked(Abs()), 0, 1
    {
      hide Sound, Heap, P.UnlinkTarget, P.DetachResolver, P.FreeAddresses, P.DropSession;
      Found(sid);
      if sid !in sessions {
        Misuse();
        return;
      }
      UnlinkTarget(fd, sid);
      DetachResolver(sid);
      FreeAddresses(sid);
      DropSession(fd, sid);
    }

    /** client_close up to the unregistration of the target. */
    method UnlinkTarget(fd: Fd, sid: Sid)
      requires Valid() && sid in sessions
      modifies this, repr
      ensures Valid() && repr == old(repr) && Abs() == P.UnlinkTarget(old(Abs()), fd, sid)
      decreases Linked(Abs()), 0, 0
    {
      hide Sound, Heap, P.Unregister, CloseFd, ClientState.Value;
      Found(sid);
      var targetFd := sessions[sid].Unlink(fd);
      Changed(sid);
      if targetFd.Some? {
        Shrinks(old(Abs()), Abs(), sid);
        var found := Unregister(targetFd.value);
        if !found {
          Close(targetFd.value);
        }
      }
    }

    /** The end of client_close: count the session out, free it, close its descriptor. */
    method DropSession(fd: Fd, sid: Sid)
      requires Valid()
      modifies this, repr
      ensures Valid() && repr == old(repr) && Abs() == P.DropSession(old(Abs()), fd, sid)
    {
      hide Sound, Heap, FreeSession, CloseFd;
      CountClosed();
      active := active - 1;
      FreeState(sid, fd);
      Close(fd);
    }

    /** metrics_connection_closed */
    method CountClosed()
      modifies `metrics
      ensures metrics == old(metrics).(concurrent := if old(metrics.concurrent) > 0 then old(metrics.concurrent) - 1 else 0)
    {
      if metrics.concurrent > 0 {
        metrics := metrics.(concurrent := metrics.concurrent - 1);
      }
    }

    /** metrics_connection_failed */
    method CountFailed()
      modifies `metrics
      ensures metrics == old(metrics).(failed := old(metrics).failed + 1)
    {
      metrics := metrics.(failed := metrics.failed + 1);
    }

    /** metrics_connection_succeeded */
    method CountSucceeded()
      modifies `metrics
      ensures metrics == old(metrics).(successful := old(metrics).successful + 1)
    {
      metrics := metrics.(successful := metrics.successful + 1);
    }

    /** target_close */
    method TargetClose(fd: Fd, sid: Sid)
      requires Valid()
      modifies this, repr
      ensures Valid() && repr == old(repr) && Abs() == P.TargetClose(old(Abs()), fd, sid)
    {
      hide Sound, Heap, CloseFd;
      Found(sid);
      if sid !in sessions {
        Misuse();
        return;
      }
      var state := sessions[sid];
      if state.targetFd == Some(fd) {
        state.targetFd := None;
        Changed(sid);
      }
      Close(fd);
    }

    /** target_connection_detach_resolver */
    method DetachResolver(sid: Sid)
      requires Valid()
      modifies this, repr
      ensures Valid() && repr == old(repr) && Abs() == P.DetachResolver(old(Abs()), sid)
    {
      hide Sound, Heap, FreeJob, FreeList;
      Found(sid);
      if sid !in sessions {
        Misuse();
        return;
      }
      var job := sessions[sid].job;
      if job.None? {
        return;
      }
      if job.value !in jobs {
        Misuse();
        return;
      }
      Abandon(job.value);
      Found(sid);
      var state := sessions[sid];
      label Released:
      state.job := None;
      Changed@Released(sid);
    }

    /** The session leaves the job: to its thread, or to be freed when the thread is through with it. */
    method Abandon(j: Jid)
      requires Valid() && j in jobs
      modifies `jobs, `lists, `fault
      ensures Valid()
      ensures var w := old(Abs()); var job := w.jobs[j];
              var w1 := w.(jobs := w.jobs[j := job.(state := None)]);
              Abs() == if job.done then FreeJob(if job.result then FreeList(w1, j) else w1, j) else w1
    {
      hide Sound, Heap, FreeJob, FreeList;
      jobs := jobs[j := jobs[j].(state := None)];
      if jobs[j].done {
        if jobs[j].result {
          FreeAddrInfo(j);
        }
        FreeResolverJob(j);
      }
    }

    /** target_connection_free_addresses */
    method FreeAddresses(sid: Sid)
      requires Valid()
      modifies this, repr
      ensures Valid() && repr == old(repr) && Abs() == P.FreeAddresses(old(Abs()), sid)
    {
      hide Sound, Heap, FreeList;
      Found(sid);
      if sid !in sessions {
        Misuse();
        return;
      }
      var state := sessions[sid];
      if state.addresses.Some? {
        FreeAddrInfo(state.addresses.value);
        label Freed:
        state.addresses, state.cursor := None, [];
        Changed@Freed(sid);
      }
    }

    // -------------------------------------------------------------- client_session.c

    /** client_session_update_relay_interests */
    method UpdateRelayInterests(sid: Sid)
      requires Valid()
      modifies this, repr
      ensures Valid() && repr == old(repr) && Abs() == P.UpdateRelayInterests(old(Abs()), sid)
    {
      hide Sound, Heap, P.SetInterest;
      Found(sid);
      if sid !in sessions {
        Misuse();
        return;
      }
      var state := sessions[sid];
      if !state.relayStarted {
        return;
      }
      if state.clientFd.Some? {
        var interest := NOOP;
        if state.upLen == 0 {
          interest := interest.(read := true);
        }
        if state.downLen > state.downOff {
          interest := interest.(write := true);
        }
        SetInterest(state.clientFd.value, interest);
      }
      if state.targetFd.Some? {
        var interest := NOOP;
        if state.downLen == 0 {
          interest := interest.(read := true);
        }
        if state.upLen > state.upOff {
          interest := interest.(write := true);
        }
        SetInterest(state.targetFd.value, interest);
      }
    }

    /** client_session_close_connection */
    method CloseConnection(sid: Sid)
      requires Valid()
      modifies this, repr
      ensures Valid() && repr == old(repr) && Abs() == P.CloseConnection(old(Abs()), sid)
    {
      hide Sound, Heap, P.Unregister, CloseFd;
      Found(sid);
      if sid !in sessions {
        Misuse();
        return;
      }
      var state := sessions[sid];
      var clientFd, targetFd := state.clientFd, state.targetFd;
      if clientFd.Some? {
        state.clientFd := None;
        Changed(sid);
        var found := Unregister(clientFd.value);
        return;
      }
      if targetFd.Some? {
        state.targetFd := None;
        Changed(sid);
        var found := Unregister(targetFd.value);
        if !found {
          Close(targetFd.value);
        }
      }
    }

    /** client_write */
    method ClientWrite(fd: Fd, sid: Sid, sends: seq<Send>)
      requires Valid()
      modifies this, repr
      ensures Valid() && repr == old(repr) && Abs() == P.ClientWrite(old(Abs()), fd, sid, sends)
    {
      hide Sound, Heap, P.CloseConnection, P.ClientReplied, P.ClientFlush, P.SetInterest, Flush;
      Found(sid);
      if sid !in sessions {
        Misuse();
        return;
      }
      var state := sessions[sid];
      ghost var s := Abs().heap[sid];
      var end := state.FlushReply(sends);
      Changed(sid);
      if end == Blocked {
        return;
      }
      if end == Broken {
        CloseConnection(sid);
        return;
      }
      if state.writeLen > 0 {
        state.writeLen, state.writeOff := 0, 0;
        Changed(sid);
        ClientReplied(fd, sid);
        return;
      }
      assert Abs() == old(Abs()) by { SamePut(old(Abs()), sid); }
      if state.stage != Relay {
        SetInterest(fd, READ);
        return;
      }
      ClientFlush(sid, sends);
    }

    /** client_write once a reply went out. */
    method ClientReplied(fd: Fd, sid: Sid)
      requires Valid()
      modifies this, repr
      ensures Valid() && repr == old(repr) && Abs() == P.ClientReplied(old(Abs()), fd, sid)
    {
      hide Sound, Heap, P.Unregister, P.UpdateRelayInterests, P.SetInterest;
      Found(sid);
      if sid !in sessions {
        Misuse();
        return;
      }
      var state := sessions[sid];
      if state.stage == Closing {
        var found := Unregister(fd);
        return;
      }
      if state.stage == Relay && !state.relayStarted {
        state.relayStarted := true;
        Changed(sid);
        UpdateRelayInterests(sid);
        return;
      }
      SetInterest(fd, READ);
    }

    /** client_write in the relay */
    method ClientFlush(sid: Sid, sends: seq<Send>)
      requires Valid()
      modifies this, repr
      ensures Valid() && repr == old(repr) && Abs() == P.ClientFlush(old(Abs()), sid, sends)
    {
      hide Sound, Heap, P.CloseConnection, P.UpdateRelayInterests, Flush, SentDown;
      Found(sid);
      if sid !in sessions {
        Misuse();
        return;
      }
      hide P.ClientFlush;
      FlushedDown(Abs(), sid, sends);
      var end := FlushDown(sid, sessions[sid], sends);
      if end == Blocked {
        return;
      }
      if end == Broken {
        CloseConnection(sid);
        return;
      }
      Found(sid);
      var state := sessions[sid];
      label Sent:
      state.downLen, state.downOff := 0, 0;
      Changed@Sent(sid);
      UpdateRelayInterests(sid);
    }

    /** The send loop from target to client: offset, counter and history advance together. */
    method FlushDown(sid: Sid, state: ClientState, sends: seq<Send>) returns (end: Flushed)
      requires Valid() && sid in sessions && sessions[sid] == state
      modifies `metrics, `hist, state`downOff
      ensures Valid()
      ensures var s := old(Abs()).heap[sid]; var f := Flush(s.t2c, s.t2cOff, sends);
              Abs() == SentDown(old(Abs()), sid, f.off) && end == f.end
    {
      hide Sound, Heap, NotedDown, Flush;
      Found(sid);
      ghost var bytes, start := state.Down(), state.downOff;
      end := PumpDown(sid, state, sends);
      assert Slice(bytes, start, state.downOff) == bytes[start..state.downOff];
      NotedLength(old(hist), sid, bytes[start..state.downOff]);
      Changed(sid);
    }

    /** The loop itself. */
    method PumpDown(sid: Sid, state: ClientState, sends: seq<Send>) returns (end: Flushed)
      requires state.Valid()
      modifies `metrics, `hist, state`downOff
      ensures var bytes, start := state.Down(), old(state.downOff); var f := Flush(bytes, start, sends);
              && start <= f.off <= |bytes| && state.downOff == f.off && end == f.end
              && metrics == old(metrics).(downstream := old(metrics).downstream + (f.off - start))
              && hist == NotedDown(old(hist), sid, bytes[start..f.off])
      ensures state.downOff == Min(state.downLen, old(state.downOff) + Accepted(sends))
      ensures end == if old(state.downOff) + Accepted(sends) >= state.downLen then Drained else if Lost(sends) then Broken else Blocked
    {
      hide NotedDown, Accepted, Lost;
      ghost var bytes, start := state.Down(), state.downOff;
      FlushMoves(bytes, start, sends);
      var k := 0;
      end := Drained;
      NotedNothing(hist, sid);
      assert bytes[start..start] == [];
      while state.downOff < state.downLen
        invariant end == Drained && start <= state.downOff <= state.downLen && k <= |sends|
        invariant metrics == old(metrics).(downstream := old(metrics).downstream + (state.downOff - start))
        invariant hist == NotedDown(old(hist), sid, bytes[start..state.downOff])
        invariant Flush(bytes, state.downOff, sends[k..]) == Flush(bytes, start, sends)
        decreases |sends| - k
      {
        if k == |sends| || sends[k].SendBlocked? {
          end := Blocked;
          break;
        }
        if sends[k].SendFailed? || sends[k].n == 0 {
          end := Broken;
          break;
        }
        var sent := Min(sends[k].n, state.downLen - state.downOff);
        ghost var off := state.downOff;
        NotedTwice(old(hist), sid, bytes[start..off], bytes[off..off + sent]);
        Joined(bytes, start, off, off + sent);
        hist := NotedDown(hist, sid, bytes[off..off + sent]);
        state.downOff := state.downOff + sent;
        metrics := metrics.(downstream := metrics.downstream + sent);
        assert sends[k..][1..] == sends[k + 1..];
        k := k + 1;
      }
    }

    /** client_read */
    method ClientRead(fd: Fd, sid: Sid, io: Io)
      requires Valid()
      modifies this, repr
      ensures Valid() && repr == old(repr) && Abs() == P.ClientRead(old(Abs()), fd, sid, io)
    {
      hide Sound, Heap, P.ClientReadRelay, P.CloseConnection, P.ReadGreeting, P.ReadAuth, P.ReadRequest;
      Found(sid);
      if sid !in sessions {
        Misuse();
        return;
      }
      if sessions[sid].stage == Relay {
        ClientReadRelay(fd, sid, io);
      } else {
        ReadHandshake(fd, sid, io);
      }
    }

    /** client_read before the relay: what recv returns lands behind what the read buffer holds. */
    method ReadHandshake(fd: Fd, sid: Sid, io: Io)
      requires Valid() && sid in sessions && sessions[sid].stage != Relay
      modifies this, repr
      ensures Valid() && repr == old(repr) && Abs() == P.ClientRead(old(Abs()), fd, sid, io)
    {
      hide Sound, Heap, P.CloseConnection, P.ReadGreeting, P.ReadAuth, P.ReadRequest, Digested, P.ClientRead;
      Found(sid);
      var state := sessions[sid];
      ReadIs(Abs(), fd, sid, io);
      if io.recv.RecvBlocked? {
        return;
      }
      if io.recv.RecvFailed? {
        CloseConnection(sid);
        return;
      }
      var got := Take(io.recv.bytes, BUFFER_SIZE - state.readLen);
      if got == [] {
        CloseConnection(sid);
        return;
      }
      state.Receive(got);
      Changed(sid);
      Digest(fd, sid, io);
    }

    /** What client_read makes of the bytes it holds, by stage. */
    method Digest(fd: Fd, sid: Sid, io: Io)
      requires Valid() && sid in sessions
      modifies this, repr
      ensures Valid() && repr == old(repr) && Abs() == Digested(old(Abs()), fd, sid, io)
    {
      hide Sound, Heap, P.CloseConnection, P.ReadGreeting, P.ReadAuth, P.ReadRequest;
      Found(sid);
      match sessions[sid].stage {
        case Greeting => ReadGreeting(fd, sid, io.users);
        case Auth => ReadAuth(fd, sid, io.users);
        case Request => ReadRequest(fd, sid, io);
        case _ =>
          staleErrnoTested := true;
          if !io.staleWouldBlock {
            CloseConnection(sid);
          }
      }
    }

    /** client_read in the relay */
    method ClientReadRelay(fd: Fd, sid: Sid, io: Io)
      requires Valid()
      modifies this, repr
      ensures Valid() && repr == old(repr) && Abs() == P.ClientReadRelay(old(Abs()), fd, sid, io)
    {
      hide Sound, Heap, P.CloseConnection, P.UpdateRelayInterests, P.TargetWrite, Remember;
      Found(sid);
      if sid !in sessions {
        Misuse();
        return;
      }
      var state := sessions[sid];
      ghost var s, h := state.Value(), Past(Abs(), sid);
      if state.upLen != 0 {
        UpdateRelayInterests(sid);
        return;
      }
      if io.recv.RecvBlocked? {
        return;
      }
      if io.recv.RecvFailed? {
        CloseConnection(sid);
        return;
      }
      var got := Take(io.recv.bytes, BUFFER_SIZE);
      if got == [] {
        Note(sid, h.(ending := ClientStreamEnded));
        CloseConnection(sid);
        return;
      }
      Note(sid, h.(c2tIn := h.c2tIn + got));
      label Noted:
      state.LoadUp(got);
      Changed@Noted(sid);
      var targetFd := state.targetFd;
      UpdateRelayInterests(sid);
      if targetFd.Some? {
        TargetWrite(targetFd.value, sid, io);
      }
    }

    /** client_read at the greeting */
    method ReadGreeting(fd: Fd, sid: Sid, users: UserMap)
      requires Valid()
      modifies this, repr
      ensures Valid() && repr == old(repr) && Abs() == P.ReadGreeting(old(Abs()), fd, sid, users)
    {
      hide Sound, Heap, P.Unregister, P.SetInterest, Remember, DecideGreeting, Put;
      Found(sid);
      if sid !in sessions {
        Misuse();
        return;
      }
      var state := sessions[sid];
      ghost var s, h := state.Value(), Past(Abs(), sid);
      var outcome := GreetingParse(state.readBuffer, state.readLen, users);
      assert outcome == DecideGreeting(s.readBuf, users);
      hide ClientState.Value;
      if outcome.GreetingWait? {
        return;
      }
      if outcome.GreetingDrop? {
        var found := Unregister(fd);
        return;
      }
      var next := if outcome.chosen == METHOD_USERNAME_PASSWORD then Auth
                  else if outcome.chosen == METHOD_NO_AUTH then Request else Closing;
      Note(sid, h.(greeting := Some(Decision(s.readBuf, users))));
      Respond(sid, GreetingResponse(outcome.chosen), next);
      SetInterest(fd, WRITE);
    }

    /** Put a reply in the write buffer, change stage and drop what was read. */
    method Respond(sid: Sid, reply: seq<byte>, next: Stage)
      requires Valid() && sid in sessions && |reply| <= BUFFER_SIZE
      modifies repr
      ensures Valid() && Abs() == Put(old(Abs()), sid, Answering(old(Abs()).heap[sid], reply, next))
    {
      hide Sound, Heap;
      Found(sid);
      sessions[sid].Respond(reply, next);
      hide ClientState.Value;
      Changed(sid);
    }

    /** client_read at the authentication */
    method ReadAuth(fd: Fd, sid: Sid, users: UserMap)
      requires Valid()
      modifies this, repr
      ensures Valid() && repr == old(repr) && Abs() == P.ReadAuth(old(Abs()), fd, sid, users)
    {
      hide Sound, Heap, P.SetInterest, Remember, DecideAuth, Put;
      Found(sid);
      if sid !in sessions {
        Misuse();
        return;
      }
      var state := sessions[sid];
      ghost var s, h := state.Value(), Past(Abs(), sid);
      var outcome := AuthParse(state.readBuffer, state.readLen, users);
      assert outcome == DecideAuth(s.readBuf, users);
      hide ClientState.Value;
      if outcome.AuthWait? {
        return;
      }
      Note(sid, h.(auth := Some(Decision(s.readBuf, users))));
      if outcome.AuthAccept? {
        Authenticated(sid, outcome.user);
      } else {
        Respond(sid, AuthResponse(AUTH_FAILURE), Closing);
      }
      SetInterest(fd, WRITE);
    }

    /** The name is stored and the client told. */
    method Authenticated(sid: Sid, user: seq<byte>)
      requires Valid() && sid in sessions
      modifies repr
      ensures Valid()
      ensures var s := old(Abs()).heap[sid];
              Abs() == Put(old(Abs()), sid, Answering(s.(username := user), AuthResponse(AUTH_SUCCESS), Request))
    {
      hide Sound, Heap;
      Found(sid);
      sessions[sid].username := user;
      sessions[sid].Respond(AuthResponse(AUTH_SUCCESS), Request);
      Changed(sid);
    }

    /** client_read at the request */
    method ReadRequest(fd: Fd, sid: Sid, io: Io)
      requires Valid()
      modifies this, repr
      ensures Valid() && repr == old(repr) && Abs() == P.ReadRequest(old(Abs()), fd, sid, io)
    {
      hide Sound, Heap, P.SetInterest, P.Refuse, P.Begin, P.Discarding, ReplyFor, IsIncomplete, ParseConnect;
      Found(sid);
      if sid !in sessions {
        Misuse();
        return;
      }
      var state := sessions[sid];
      if state.readLen < 4 {
        return;
      }
      var reply := RequestReplyFor(state.readBuffer, state.readLen);
      if reply != REPLY_SUCCESS {
        var incomplete := RequestIsIncomplete(state.readBuffer, state.readLen);
        if incomplete {
          return;
        }
        Reject(fd, sid, reply);
        return;
      }
      var request := ParseRequest(state.readBuffer, state.readLen);
      if request.None? {
        Reject(fd, sid, REPLY_GENERAL_FAILURE);
        return;
      }
      Begin(fd, sid, request.value, io);
      DiscardInput(sid);
    }

    /** Refuse a request that cannot be taken up. */
    method Reject(fd: Fd, sid: Sid, code: byte)
      requires Valid()
      modifies this, repr
      ensures Valid() && repr == old(repr)
      ensures Abs() == P.SetInterest(Discarding(P.Refuse(old(Abs()), sid, code, false), sid), fd, WRITE)
    {
      hide Sound, Heap, P.SetInterest, P.Refuse, P.Discarding;
      Refuse(sid, code, false);
      DiscardInput(sid);
      SetInterest(fd, WRITE);
    }

    /** read_len = 0 */
    method DiscardInput(sid: Sid)
      requires Valid()
      modifies this, repr
      ensures Valid() && repr == old(repr) && Abs() == Discarding(old(Abs()), sid)
    {
      hide Sound, Heap;
      Found(sid);
      if sid !in sessions {
        Misuse();
        return;
      }
      var state := sessions[sid];
      state.readLen := 0;
      assert state.Input() == [];
      Changed(sid);
    }

    /** Prepare a failure reply, count it, log it if asked to, and go closing. */
    method Refuse(sid: Sid, code: byte, logged: bool)
      requires Valid()
      modifies this, repr
      ensures Valid() && repr == old(repr) && Abs() == P.Refuse(old(Abs()), sid, code, logged)
    {
      hide Sound, Heap, Remember, P.LogAccess, RequestResponse;
      Found(sid);
      if sid !in sessions {
        Misuse();
        return;
      }
      ghost var h := Past(Abs(), sid);
      Note(sid, h.(replies := h.replies + [code]));
      CountFailed();
      ghost var w := Abs();
      if logged {
        LogAccess(sid, false);
      }
      assert Abs() == if logged then P.LogAccess(w, sid, false) else w;
      Found(sid);
      if sid !in sessions {
        Misuse();
        return;
      }
      PrepareReply(sid, code, Closing);
    }

    /** socks5_prepare_request_response, and the stage that follows. */
    method PrepareReply(sid: Sid, code: byte, next: Stage)
      requires Valid() && sid in sessions
      modifies repr
      ensures Valid()
      ensures var s := old(Abs()).heap[sid];
              Abs() == Put(old(Abs()), sid, s.(writeBuf := RequestResponse(code), writeOff := 0, stage := next))
    {
      hide Sound, Heap;
      Found(sid);
      sessions[sid].Prepare(RequestResponse(code), next);
      hide ClientState.Value;
      Changed(sid);
    }

    /** access_log_client_connection */
    method LogAccess(sid: Sid, success: bool)
      requires Valid()
      modifies this, repr
      ensures Valid() && repr == old(repr) && Abs() == P.LogAccess(old(Abs()), sid, success)
    {
      hide Sound, Heap, Remember;
      Found(sid);
      if sid !in sessions {
        Misuse();
        return;
      }
      var state := sessions[sid];
      ghost var s, h := state.Value(), Past(Abs(), sid);
      if state.accessLogged || state.destination == NoDestination || state.destination == Named([]) {
        return;
      }
      Note(sid, h.(records := h.records + [Record(s.username, s.destination, s.port, success)]));
      label Noted:
      state.accessLogged := true;
      Changed@Noted(sid);
    }

    // -------------------------------------------------------------- target_connection.c

    /** target_connection_begin */
    method Begin(fd: Fd, sid: Sid, request: ConnectRequest, io: Io)
      requires Valid()
      modifies this, repr
      ensures Valid() && repr == old(repr) && Abs() == P.Begin(old(Abs()), fd, sid, request, io)
    {
      hide Sound, Heap, P.FreeAddresses, Remember, P.BeginLookup, P.DetachResolver, P.StartConnection, P.AfterStart, ClientState.Value;
      FreeAddresses(sid);
      Found(sid);
      if sid !in sessions {
        Misuse();
        return;
      }
      TakeUp(sid, request);
      if request.atyp == ATYP_DOMAIN {
        DetachResolver(sid);
        BeginLookup(fd, sid, request, io);
        return;
      }
      var address := Address(if request.atyp == ATYP_IPV4 then AF_INET else AF_INET6, request.address, request.port);
      ghost var h := Past(Abs(), sid);
      Note(sid, h.(candidates := [address]));
      var ok := StartConnection(sid, address, FirstAttempt(io.attempts));
      AfterStart(fd, sid, ok);
    }

    /** What the session remembers of its request. */
    method TakeUp(sid: Sid, request: ConnectRequest)
      requires Valid() && sid in sessions
      modifies this, repr
      ensures Valid() && repr == old(repr)
      ensures var w := old(Abs());
              Abs() == Put(Remember(w, sid, Past(w, sid).(request := Some(request))), sid,
                           Destined(w.heap[sid], request))
    {
      hide Sound, Heap, Remember, CString, Destined;
      Found(sid);
      ghost var h := Past(Abs(), sid);
      Note(sid, h.(request := Some(request)));
      label Noted:
      sessions[sid].TakeUp(request);
      hide ClientState.Value;
      Changed@Noted(sid);
    }

    /** What follows starting a connection: wait for it, or refuse. */
    method AfterStart(fd: Fd, sid: Sid, ok: bool)
      requires Valid()
      modifies this, repr
      ensures Valid() && repr == old(repr) && Abs() == P.AfterStart(Started(old(Abs()), ok), fd, sid)
    {
      hide Sound, Heap, P.Refuse, P.SetInterest;
      Found(sid);
      if sid !in sessions {
        Misuse();
        return;
      }
      if !ok {
        Refuse(sid, ReplyForErrno(sessions[sid].lastError), true);
        SetInterest(fd, WRITE);
        return;
      }
      SetInterest(fd, NOOP);
    }

    /** start_target_resolution, and what target_connection_begin does around it. */
    method BeginLookup(fd: Fd, sid: Sid, request: ConnectRequest, io: Io)
      requires Valid()
      modifies this, repr
      ensures Valid() && repr == old(repr) && Abs() == P.BeginLookup(old(Abs()), fd, sid, request, io)
    {
      hide Sound, Heap, P.Refuse, P.SetInterest, Remember, Put, CString;
      Found(sid);
      if sid !in sessions {
        Misuse();
        return;
      }
      if !io.resolverStarts {
        Refuse(sid, REPLY_GENERAL_FAILURE, true);
        SetInterest(fd, WRITE);
        return;
      }
      var j := StartThread(sid, request, sessions[sid].clientFd);
      ghost var h := Past(Abs(), sid);
      Note(sid, h.(lookup := Some(j)));
      Wait(sid, j);
      SetInterest(fd, NOOP);
    }

    /** A job is made and its thread started. */
    method StartThread(sid: Sid, request: ConnectRequest, clientFd: Option<Fd>) returns (j: Jid)
      requires Valid()
      modifies `nextJob, `origins, `jobs, `threads
      ensures Valid()
      ensures var w := old(Abs());
              && j == |w.origins|
              && Abs() == w.(origins := w.origins + [Origin(sid, CString(request.address), request.port, None)],
                             jobs := w.jobs[j := Job(if clientFd.Some? then clientFd.value else 0, Some(sid), false, EAI_AGAIN, false)],
                             threads := w.threads[j := Lookup])
    {
      hide Sound, Heap, CString;
      j := nextJob;
      nextJob := nextJob + 1;
      origins := origins + [Origin(sid, CString(request.address), request.port, None)];
      jobs := jobs[j := Job(if clientFd.Some? then clientFd.value else 0, Some(sid), false, EAI_AGAIN, false)];
      threads := threads[j := Lookup];
    }

    method Wait(sid: Sid, j: Jid)
      requires Valid() && sid in sessions
      modifies repr
      ensures Valid() && Abs() == Put(old(Abs()), sid, old(Abs()).heap[sid].(job := Some(j), stage := Resolving))
    {
      hide Sound, Heap;
      Found(sid);
      sessions[sid].job, sessions[sid].stage := Some(j), Resolving;
      Changed(sid);
    }

    /** start_target_connection */
    method StartConnection(sid: Sid, address: Address, attempt: Attempt) returns (ok: bool)
      requires Valid()
      modifies this, repr
      ensures Valid() && repr == old(repr) && Started(Abs(), ok) == P.StartConnection(old(Abs()), sid, address, attempt)
    {
      hide Sound, Heap, CloseFd, P.AttemptFailed, Remember, ClientState.Value;
      Found(sid);
      if sid !in sessions {
        Misuse();
        return false;
      }
      if attempt.NoSocket? {
        AttemptFailed(sid, address, attempt.errno);
        return false;
      }
      var fd := FreshFd(open, attempt.fd);
      open := open + {fd};
      if attempt.NotNonBlocking? {
        Close(fd);
        AttemptFailed(sid, address, attempt.errno);
        return false;
      }
      Found(sid);
      SetTarget(sid, Some(fd));
      if attempt.ConnectFailed? || fd >= FD_LIMIT || fd in table {
        GiveUp(sid, fd);
        AttemptFailed(sid, address, attempt.errno);
        return false;
      }
      Launch(sid, fd, address);
      return true;
    }

    /** The socket of a failed attempt is closed and forgotten. */
    method GiveUp(sid: Sid, fd: Fd)
      requires Valid() && sid in sessions
      modifies this, repr
      ensures Valid() && repr == old(repr)
      ensures Abs() == Put(CloseFd(old(Abs()), fd), sid, old(Abs()).heap[sid].(targetFd := None))
    {
      hide Sound, Heap;
      Found(sid);
      Close(fd);
      SetTarget(sid, None);
    }

    /** register_connecting_socket */
    method Launch(sid: Sid, fd: Fd, address: Address)
      requires Valid() && sid in sessions && Registrable(Abs(), fd)
      modifies this, repr
      ensures Valid() && repr == old(repr)
      ensures var w := old(Abs()); var h := Past(w, sid); var w1 := Remember(w, sid, h.(tried := h.tried + [Try(address, Pending)]));
              Abs() == Put(w1.(table := w1.table[fd := Item(TargetItem, WRITE, sid)]), sid, w.heap[sid].(stage := Connecting))
    {
      hide Sound, Heap, Remember;
      Found(sid);
      var state := sessions[sid];
      ghost var h := Past(Abs(), sid);
      Note(sid, h.(tried := h.tried + [Try(address, Pending)]));
      table := table[fd := Item(TargetItem, WRITE, sid)];
      label Registered:
      state.stage := Connecting;
      Changed@Registered(sid);
    }

    method SetTarget(sid: Sid, fd: Option<Fd>)
      requires Valid() && sid in sessions
      modifies repr
      ensures Valid() && Abs() == Put(old(Abs()), sid, old(Abs()).heap[sid].(targetFd := fd))
    {
      hide Sound, Heap;
      Found(sid);
      sessions[sid].targetFd := fd;
      Changed(sid);
    }

    method AttemptFailed(sid: Sid, address: Address, errno: int)
      requires Valid()
      modifies this, repr
      ensures Valid() && repr == old(repr) && Started(Abs(), false) == P.AttemptFailed(old(Abs()), sid, address, errno)
    {
      hide Sound, Heap, Remember;
      Found(sid);
      if sid !in sessions {
        Misuse();
        return;
      }
      var state := sessions[sid];
      ghost var h := Past(Abs(), sid);
      Note(sid, h.(tried := h.tried + [Try(address, Failed(errno))]));
      label Noted:
      state.lastError := errno;
      Changed@Noted(sid);
    }

    /** start_next_target_connection */
    method StartNext(sid: Sid, attempts: seq<Attempt>) returns (ok: bool)
      requires Valid()
      modifies this, repr
      ensures Valid() && repr == old(repr) && Started(Abs(), ok) == P.StartNext(old(Abs()), sid, attempts)
    {
      hide Sound, Heap, P.StartConnection;
      var rest := attempts;
      while true
        invariant Valid() && repr == old(repr)
        invariant P.StartNext(Abs(), sid, rest) == P.StartNext(old(Abs()), sid, attempts)
        decreases if sid in Abs().heap then |Abs().heap[sid].cursor| else 0
      {
        Found(sid);
        if sid !in sessions {
          Misuse();
          return false;
        }
        var state := sessions[sid];
        if state.cursor == [] {
          return false;
        }
        if state.addresses.None? || state.addresses.value !in lists {
          Misuse();
          return false;
        }
        var current := state.cursor[0];
        label Advance:
        state.cursor := state.cursor[1..];
        Changed@Advance(sid);
        if Usable(current) {
          ok := StartConnection(sid, current, FirstAttempt(rest));
          if ok {
            return true;
          }
          rest := if rest == [] then [] else rest[1..];
        }
      }
    }

    /** target_write */
    method TargetWrite(fd: Fd, sid: Sid, io: Io)
      requires Valid()
      modifies this, repr
      ensures Valid() && repr == old(repr) && Abs() == P.TargetWrite(old(Abs()), fd, sid, io)
    {
      hide Sound, Heap, P.TargetConnected, P.MarkLastTry, P.Unregister, P.StartNext, P.TargetFailed, P.TargetFlush, P.SetInterest;
      Found(sid);
      if sid !in sessions {
        Misuse();
        return;
      }
      if sessions[sid].stage != Connecting {
        TargetFlush(sid, io.sends);
        return;
      }
      if io.soError == Reported(0) {
        SetInterest(fd, NOOP);
        TargetConnected(sid);
        return;
      }
      var errno := if io.soError.Reported? then io.soError.error else io.soError.errno;
      AttemptEnded(sid, errno);
      var found := Unregister(fd);
      Found(sid);
      if sid !in sessions {
        Misuse();
        return;
      }
      var ok := StartNext(sid, io.attempts);
      TargetFailed(sid, ok);
    }

    /** The pending connect failed. */
    method AttemptEnded(sid: Sid, errno: int)
      requires Valid() && sid in sessions
      modifies this, repr
      ensures Valid() && repr == old(repr)
      ensures Abs() == Put(P.MarkLastTry(old(Abs()), sid, Failed(errno)), sid, old(Abs()).heap[sid].(lastError := errno))
    {
      hide Sound, Heap, P.MarkLastTry;
      Found(sid);
      var state := sessions[sid];
      MarkLastTry(sid, Failed(errno));
      label Marked:
      state.lastError := errno;
      Changed@Marked(sid);
    }

    ghost method MarkLastTry(sid: Sid, outcome: Outcome)
      requires Valid()
      modifies `hist
      ensures Valid() && Abs() == P.MarkLastTry(old(Abs()), sid, outcome)
    {
      hide Sound, Heap, Remember;
      var h := Past(Abs(), sid);
      if h.tried != [] {
        var last := |h.tried| - 1;
        Note(sid, h.(tried := h.tried[last := Try(h.tried[last].address, outcome)]));
      }
    }

    /** target_write once the pending connect succeeded */
    method TargetConnected(sid: Sid)
      requires Valid() && sid in sessions
      modifies this, repr
      ensures Valid() && repr == old(repr) && Abs() == P.TargetConnected(old(Abs()), sid)
    {
      hide Sound, Heap, P.TargetConnected, P.MarkLastTry, Remember, P.LogAccess, EnteredRelay;
      Found(sid);
      ConnectedIs(Abs(), sid);
      MarkLastTry(sid, Connected);
      ghost var h := Past(Abs(), sid);
      Note(sid, h.(replies := h.replies + [REPLY_SUCCESS], succeeded := true));
      CountSucceeded();
      LogAccess(sid, true);
      EnterRelay(sid);
    }

    method EnterRelay(sid: Sid)
      requires Valid()
      modifies this, repr
      ensures Valid() && repr == old(repr) && Abs() == EnteredRelay(old(Abs()), sid)
    {
      hide Sound, Heap, P.SetInterest, RequestResponse;
      Found(sid);
      if sid !in sessions {
        Misuse();
        return;
      }
      var clientFd := sessions[sid].clientFd;
      PrepareReply(sid, REPLY_SUCCESS, Relay);
      if clientFd.Some? {
        SetInterest(clientFd.value, WRITE);
      }
    }

    /** target_write after a failed connect */
    method TargetFailed(sid: Sid, ok: bool)
      requires Valid()
      modifies this, repr
      ensures Valid() && repr == old(repr) && Abs() == P.TargetFailed(Started(old(Abs()), ok), sid)
    {
      hide Sound, Heap, P.Refuse, P.SetInterest;
      Found(sid);
      if sid !in sessions {
        Misuse();
        return;
      }
      if ok {
        return;
      }
      var clientFd := sessions[sid].clientFd;
      Refuse(sid, ReplyForErrno(sessions[sid].lastError), true);
      if clientFd.Some? {
        SetInterest(clientFd.value, WRITE);
      }
    }

    /** target_write in the relay */
    method TargetFlush(sid: Sid, sends: seq<Send>)
      requires Valid()
      modifies this, repr
      ensures Valid() && repr == old(repr) && Abs() == P.TargetFlush(old(Abs()), sid, sends)
    {
      hide Sound, Heap, P.CloseConnection, P.UpdateRelayInterests, Flush, SentUp;
      Found(sid);
      if sid !in sessions {
        Misuse();
        return;
      }
      hide P.TargetFlush;
      FlushedUp(Abs(), sid, sends);
      var end := FlushUp(sid, sessions[sid], sends);
      if end == Blocked {
        return;
      }
      if end == Broken {
        CloseConnection(sid);
        return;
      }
      Found(sid);
      var state := sessions[sid];
      label Sent:
      state.upLen, state.upOff := 0, 0;
      Changed@Sent(sid);
      UpdateRelayInterests(sid);
    }

    /** The send loop from client to target: offset, counter and history advance together. */
    method FlushUp(sid: Sid, state: ClientState, sends: seq<Send>) returns (end: Flushed)
      requires Valid() && sid in sessions && sessions[sid] == state
      modifies `metrics, `hist, state`upOff
      ensures Valid()
      ensures var s := old(Abs()).heap[sid]; var f := Flush(s.c2t, s.c2tOff, sends);
              Abs() == SentUp(old(Abs()), sid, f.off) && end == f.end
    {
      hide Sound, Heap, NotedUp, Flush;
      Found(sid);
      ghost var bytes, start := state.Up(), state.upOff;
      end := PumpUp(sid, state, sends);
      assert Slice(bytes, start, state.upOff) == bytes[start..state.upOff];
      NotedLength(old(hist), sid, bytes[start..state.upOff]);
      Changed(sid);
    }

    /** The loop itself. */
    method PumpUp(sid: Sid, state: ClientState, sends: seq<Send>) returns (end: Flushed)
      requires state.Valid()
      modifies `metrics, `hist, state`upOff
      ensures var bytes, start := state.Up(), old(state.upOff); var f := Flush(bytes, start, sends);
              && start <= f.off <= |bytes| && state.upOff == f.off && end == f.end
              && metrics == old(metrics).(upstream := old(metrics).upstream + (f.off - start))
              && hist == NotedUp(old(hist), sid, bytes[start..f.off])
      ensures state.upOff == Min(state.upLen, old(state.upOff) + Accepted(sends))
      ensures end == if old(state.upOff) + Accepted(sends) >= state.upLen then Drained else if Lost(sends) then Broken else Blocked
    {
      hide NotedUp, Accepted, Lost;
      ghost var bytes, start := state.Up(), state.upOff;
      FlushMoves(bytes, start, sends);
      var k := 0;
      end := Drained;
      NotedNothing(hist, sid);
      assert bytes[start..start] == [];
      while state.upOff < state.upLen
        invariant end == Drained && start <= state.upOff <= state.upLen && k <= |sends|
        invariant metrics == old(metrics).(upstream := old(metrics).upstream + (state.upOff - start))
        invariant hist == NotedUp(old(hist), sid, bytes[start..state.upOff])
        invariant Flush(bytes, state.upOff, sends[k..]) == Flush(bytes, start, sends)
        decreases |sends| - k
      {
        if k == |sends| || sends[k].SendBlocked? {
          end := Blocked;
          break;
        }
        if sends[k].SendFailed? || sends[k].n == 0 {
          end := Broken;
          break;
        }
        var sent := Min(sends[k].n, state.upLen - state.upOff);
        ghost var off := state.upOff;
        NotedTwice(old(hist), sid, bytes[start..off], bytes[off..off + sent]);
        Joined(bytes, start, off, off + sent);
        hist := NotedUp(hist, sid, bytes[off..off + sent]);
        state.upOff := state.upOff + sent;
        metrics := metrics.(upstream := metrics.upstream + sent);
        assert sends[k..][1..] == sends[k + 1..];
        k := k + 1;
      }
    }

    /** target_read */
    method TargetRead(fd: Fd, sid: Sid, io: Io)
      requires Valid()
      modifies this, repr
      ensures Valid() && repr == old(repr) && Abs() == P.TargetRead(old(Abs()), fd, sid, io)
    {
      hide Sound, Heap, P.CloseConnection, P.UpdateRelayInterests, P.ClientWrite, Remember;
      Found(sid);
      if sid !in sessions {
        Misuse();
        return;
      }
      var state := sessions[sid];
      ghost var s, h := state.Value(), Past(Abs(), sid);
      if state.downLen != 0 {
        UpdateRelayInterests(sid);
        return;
      }
      if io.recv.RecvBlocked? {
        return;
      }
      if io.recv.RecvFailed? {
        CloseConnection(sid);
        return;
      }
      var got := Take(io.recv.bytes, BUFFER_SIZE);
      if got == [] {
        Note(sid, h.(ending := TargetStreamEnded));
        CloseConnection(sid);
        return;
      }
      Note(sid, h.(t2cIn := h.t2cIn + got));
      label Noted:
      state.LoadDown(got);
      Changed@Noted(sid);
      var clientFd := state.clientFd;
      UpdateRelayInterests(sid);
      if clientFd.Some? {
        ClientWrite(clientFd.value, sid, io.sends);
      }
    }

    /** target_connection_on_resolve */
    method OnResolve(fd: Fd, sid: Sid, io: Io)
      requires Valid()
      modifies this, repr
      ensures Valid() && repr == old(repr) && Abs() == P.OnResolve(old(Abs()), fd, sid, io)
    {
      hide Sound, Heap, P.TakeAnswer;
      Found(sid);
      if sid !in sessions {
        Misuse();
        return;
      }
      var state := sessions[sid];
      if state.stage != Resolving || state.job.None? {
        return;
      }
      if state.job.value !in jobs {
        Misuse();
        return;
      }
      if !jobs[state.job.value].done {
        return;
      }
      TakeAnswer(fd, sid, state.job.value, io);
    }

    /** target_connection_on_resolve with a finished job */
    method TakeAnswer(fd: Fd, sid: Sid, j: Jid, io: Io)
      requires Valid()
      modifies this, repr
      ensures Valid() && repr == old(repr) && Abs() == P.TakeAnswer(old(Abs()), fd, sid, j, io)
    {
      hide Sound, Heap, FreeJob, P.Refuse, P.SetInterest, Remember, P.StartNext, P.AfterStart, Filter;
      Found(sid);
      if sid !in sessions || j !in jobs {
        Misuse();
        return;
      }
      var state, status, result := sessions[sid], jobs[j].status, jobs[j].result;
      FreeResolverJob(j);
      label Freed:
      state.job := None;
      Changed@Freed(sid);
      if status != 0 || !result {
        Refuse(sid, ReplyForGaiError(status), true);
        SetInterest(fd, WRITE);
        return;
      }
      if j !in lists {
        Misuse();
        return;
      }
      KeepList(sid, j);
      var ok := StartNext(sid, io.attempts);
      AfterStart(fd, sid, ok);
    }

    /** The session takes the list over. */
    method KeepList(sid: Sid, j: Jid)
      requires Valid() && sid in sessions && j in lists
      modifies this, repr
      ensures Valid() && repr == old(repr)
      ensures var w := old(Abs()); var h := Past(w, sid);
              Abs() == Put(Remember(w, sid, h.(resolved := Some(j), candidates := Filter(w.lists[j]))),
                           sid, w.heap[sid].(addresses := Some(j), cursor := w.lists[j]))
    {
      hide Sound, Heap, Remember, Filter;
      Found(sid);
      var state := sessions[sid];
      ghost var h := Past(Abs(), sid);
      Note(sid, h.(resolved := Some(j), candidates := Filter(lists[j])));
      label Noted:
      state.addresses, state.cursor := Some(j), lists[j];
      Changed@Noted(sid);
    }

    // -------------------------------------------------------------- the resolver thread and the event loop

    /** One atomic step of resolve_target. */
    method ThreadStep(j: Jid, answer: Answer)
      requires Valid()
      modifies this, repr
      ensures Valid() && repr == old(repr) && Abs() == P.ThreadStep(old(Abs()), j, answer)
    {
      hide Sound, Heap, FreeJob, FreeList, P.LookupReturns, P.Publishing;
      if j !in threads {
        return;
      }
      match threads[j] {
        case Lookup => LookupReturns(j, answer);
        case Publish(status, result) => Publish(j, status, result);
        case Notify(fd) =>
          queue := [fd] + queue;
          threads := threads - {j};
        case Discard(result) =>
          if result {
            FreeAddrInfo(j);
          }
          FreeResolverJob(j);
          threads := threads - {j};
      }
    }

    /** getaddrinfo returns. */
    method LookupReturns(j: Jid, answer: Answer)
      requires Valid()
      modifies `threads, `lists, `origins, `fault
      ensures Valid() && Abs() == P.LookupReturns(old(Abs()), j, answer)
    {
      hide Sound, Heap;
      if j !in jobs || j >= nextJob {
        Misuse();
        return;
      }
      var found := answer.status == 0 && answer.addresses != [];
      threads := threads[j := Thread.Publish(answer.status, found)];
      if found {
        lists := lists[j := answer.addresses];
      }
      origins := origins[j := origins[j].(answer := Some(Answer(answer.status, if found then answer.addresses else [])))];
    }

    /** The critical section of resolve_target. */
    method Publish(j: Jid, status: int, result: bool)
      requires Valid()
      modifies `jobs, `threads, `fault
      ensures Valid() && Abs() == P.Publishing(old(Abs()), j, status, result)
    {
      hide Sound, Heap;
      if j !in jobs {
        Misuse();
        return;
      }
      jobs := jobs[j := jobs[j].(result := result, status := status, done := true)];
      threads := threads[j := if jobs[j].state.Some? then Notify(jobs[j].fd) else Discard(result)];
    }

    /** One connection accepted by accept_connection. */
    method Accept(want: Fd)
      requires Valid()
      modifies this, repr
      ensures Valid() && fresh(repr - old(repr)) && Abs() == AcceptClient(old(Abs()), want)
    {
      hide Sound, Heap, FreshFd, Proxy.Fresh, CloseFd;
      var fd := FreshFd(open, want);
      open := open + {fd};
      if fd >= FD_LIMIT || fd in table {
        Close(fd);
        return;
      }
      Admit(fd);
    }

    /** A registered connection gets its session. */
    method Admit(fd: Fd)
      requires Valid() && Registrable(Abs(), fd)
      modifies this, repr
      ensures Valid() && fresh(repr - old(repr))
      ensures var w := old(Abs()); var m := w.metrics;
              Abs() == Register(w, fd, Item(ClientItem, READ, |w.hist|))
                       .(heap := w.heap[|w.hist| := Proxy.Fresh(fd)], hist := w.hist + [BLANK],
                         metrics := m.(historical := m.historical + 1, concurrent := m.concurrent + 1), active := w.active + 1)
    {
      hide Sound, Heap, Proxy.Fresh;
      var sid := Allocate(fd);
      CountIn(fd, sid);
    }

    /** calloc of a session. */
    method Allocate(fd: Fd) returns (sid: Sid)
      requires Valid()
      modifies `sessions, `repr
      ensures Valid() && fresh(repr - old(repr)) && sid == |hist|
      ensures Abs() == old(Abs()).(heap := old(Abs()).heap[sid := Proxy.Fresh(fd)])
    {
      hide Sound, Heap, Proxy.Fresh, ClientState.Valid, ClientState.Value;
      sid := nextSession;
      var state := new ClientState(fd);
      sessions, repr := sessions[sid := state], repr + state.Footprint();
      Added(sid);
    }

    /** metrics_connection_opened, and the registration. */
    method CountIn(fd: Fd, sid: Sid)
      requires Sound() && sid == |hist|
      modifies `table, `hist, `nextSession, `metrics, `active
      ensures Sound() && nextSession == |hist|
      ensures var w := old(Abs()); var m := w.metrics;
              Abs() == w.(table := w.table[fd := Item(ClientItem, READ, sid)], hist := w.hist + [BLANK],
                          metrics := m.(historical := m.historical + 1, concurrent := m.concurrent + 1), active := w.active + 1)
    {
      hide Sound, Heap;
      table := table[fd := Item(ClientItem, READ, sid)];
      hist, nextSession := hist + [BLANK], sid + 1;
      metrics := metrics.(historical := metrics.historical + 1, concurrent := metrics.concurrent + 1);
      active := active + 1;
    }

    /** The body of handle_iteration for one descriptor. */
    method Dispatch(fd: Fd, readable: bool, writable: bool, onRead: Io, onWrite: Io)
      requires Valid()
      modifies this, repr
      ensures Valid() && repr == old(repr) && Abs() == P.Dispatch(old(Abs()), fd, readable, writable, onRead, onWrite)
    {
      hide Sound, Heap, P.ClientRead, P.TargetRead, P.ClientWrite, P.TargetWrite;
      if fd !in table {
        return;
      }
      var item := table[fd];
      if readable && item.interest.read {
        if item.kind == ClientItem {
          ClientRead(fd, item.sid, onRead);
        } else {
          TargetRead(fd, item.sid, onRead);
        }
      }
      if writable && fd in table && table[fd].interest.write {
        if table[fd].kind == ClientItem {
          ClientWrite(fd, item.sid, onWrite.sends);
        } else {
          TargetWrite(fd, item.sid, onWrite);
        }
      }
    }

    /** The body of handle_block_notifications for one notification. */
    method DrainOne(io: Io)
      requires Valid()
      modifies this, repr
      ensures Valid() && repr == old(repr) && Abs() == P.DrainOne(old(Abs()), io)
    {
      hide Sound, Heap, P.OnResolve;
      if queue == [] {
        return;
      }
      var fd := queue[0];
      queue := queue[1..];
      if fd in table {
        if table[fd].kind == ClientItem {
          OnResolve(fd, table[fd].sid, io);
        } else {
          Misuse();
        }
      }
    }

    /** One event. */
    method Handle(e: Event)
      requires Valid()
      modifies this, repr
      ensures Valid() && fresh(repr - old(repr)) && Abs() == Step(old(Abs()), e)
    {
      hide Sound, Heap, P.AcceptClient, P.Dispatch, P.DrainOne, P.ThreadStep;
      match e {
        case Accept(want) => Accept(want);
        case Ready(fd, readable, writable, onRead, onWrite) => Dispatch(fd, readable, writable, onRead, onWrite);
        case Drain(io) => DrainOne(io);
        case ThreadRuns(j, answer) => ThreadStep(j, answer);
      }
    }

    /** Whatever events come. */
    method Serve(events: seq<Event>)
      requires Valid()
      modifies this, repr
      ensures Valid() && fresh(repr - old(repr)) && Abs() == Run(old(Abs()), events)
    {
      hide Sound, Heap, Step;
      for k := 0 to |events|
        invariant Valid() && fresh(repr - old(repr)) && Abs() == Run(old(Abs()), events[..k])
      {
        assert events[..k + 1][..k] == events[..k];
        Handle(events[k]);
      }
      assert events[..|events|] == events;
    }

    /** selector_destroy, with the descriptors in any order and resolver threads running in between. */
    method Destroy(steps: seq<Winding>)
      requires Valid()
      modifies this, repr
      ensures Valid() && repr == old(repr) && Abs() == WindDown(old(Abs()), steps)
    {
      hide Sound, Heap, P.Unregister, P.ThreadStep;
      for k := 0 to |steps|
        invariant Valid() && repr == old(repr) && Abs() == WindDown(old(Abs()), steps[..k])
      {
        assert steps[..k + 1][..k] == steps[..k];
        match steps[k] {
          case Unregisters(fd) => var found := Unregister(fd);
          case Resolves(j, answer) => ThreadStep(j, answer);
        }
      }
      assert steps[..|steps|] == steps;
    }
  }

  /** Unlinking the target lowers the measure of nested unregistrations. */
  lemma Shrinks(w: World, w': World, sid: Sid)
    requires sid in w.heap && w.heap[sid].targetFd.Some?
    requires sid in w'.heap && w'.heap[sid].targetFd.None? && w'.heap == w.heap[sid := w'.heap[sid]]
    ensures Linked(w') < Linked(w)
  {
    assert sid in Linked(w);
  }

  /** client_read with the new bytes already in the buffer. */
  ghost function Digested(w: World, fd: Fd, sid: Sid, io: Io): World
    requires sid in w.heap
  {
    match w.heap[sid].stage
    case Greeting => ReadGreeting(w, fd, sid, io.users)
    case Auth => ReadAuth(w, fd, sid, io.users)
    case Request => ReadRequest(w, fd, sid, io)
    case _ =>
      var w1 := w.(staleErrnoTested := true);
      if io.staleWouldBlock then w1 else CloseConnection(w1, sid)
  }

  lemma ReadIs(w: World, fd: Fd, sid: Sid, io: Io)
    requires sid in w.heap && w.heap[sid].stage != Relay && |w.heap[sid].readBuf| <= BUFFER_SIZE
    ensures ClientRead(w, fd, sid, io)
            == match io.recv
               case RecvBlocked => w
               case RecvFailed => CloseConnection(w, sid)
               case Received(bytes) =>
                 var s := w.heap[sid];
                 var got := Take(bytes, BUFFER_SIZE - |s.readBuf|);
                 if got == [] then CloseConnection(w, sid)
                 else Digested(Put(w, sid, s.(readBuf := s.readBuf + got)), fd, sid, io)
  {
    hide CloseConnection, ReadGreeting, ReadAuth, ReadRequest;
  }

  lemma SamePut(w: World, sid: Sid)
    requires sid in w.heap
    ensures Put(w, sid, w.heap[sid]) == w
  {
    assert w.heap[sid := w.heap[sid]] == w.heap;
  }

  ghost function NotedDown(hist: seq<Hist>, sid: Sid, sent: seq<byte>): seq<Hist> {
    if sid < |hist| then hist[sid := hist[sid].(t2cOut := hist[sid].t2cOut + sent)] else hist
  }

  ghost function NotedUp(hist: seq<Hist>, sid: Sid, sent: seq<byte>): seq<Hist> {
    if sid < |hist| then hist[sid := hist[sid].(c2tOut := hist[sid].c2tOut + sent)] else hist
  }

  lemma Joined(bytes: seq<byte>, a: nat, b: nat, c: nat)
    requires a <= b <= c <= |bytes|
    ensures bytes[a..b] + bytes[b..c] == bytes[a..c]
  {
  }

  lemma NotedLength(hist: seq<Hist>, sid: Sid, sent: seq<byte>)
    ensures |NotedDown(hist, sid, sent)| == |hist| && |NotedUp(hist, sid, sent)| == |hist|
  {
  }

  lemma NotedNothing(hist: seq<Hist>, sid: Sid)
    ensures NotedDown(hist, sid, []) == hist && NotedUp(hist, sid, []) == hist
  {
    if sid < |hist| {
      assert hist[sid].t2cOut + [] == hist[sid].t2cOut && hist[sid].c2tOut + [] == hist[sid].c2tOut;
    }
  }

  lemma NotedTwice(hist: seq<Hist>, sid: Sid, x: seq<byte>, y: seq<byte>)
    ensures NotedDown(NotedDown(hist, sid, x), sid, y) == NotedDown(hist, sid, x + y)
    ensures NotedUp(NotedUp(hist, sid, x), sid, y) == NotedUp(hist, sid, x + y)
  {
    if sid < |hist| {
      assert (hist[sid].t2cOut + x) + y == hist[sid].t2cOut + (x + y);
      assert (hist[sid].c2tOut + x) + y == hist[sid].c2tOut + (x + y);
    }
  }

  /** The world after the bytes up to `off` went to the client. */
  ghost function SentDown(w: World, sid: Sid, off: nat): World
    requires sid in w.heap
  {
    var s := w.heap[sid];
    var sent := Slice(s.t2c, s.t2cOff, off);
    w.(heap := w.heap[sid := s.(t2cOff := off)], hist := NotedDown(w.hist, sid, sent),
       metrics := w.metrics.(downstream := w.metrics.downstream + |sent|))
  }

  lemma FlushedDown(w: World, sid: Sid, sends: seq<Send>)
    requires sid in w.heap
    ensures var s := w.heap[sid]; var f := Flush(s.t2c, s.t2cOff, sends); var w1 := SentDown(w, sid, f.off);
            ClientFlush(w, sid, sends)
            == match f.end
               case Blocked => w1
               case Broken => CloseConnection(w1, sid)
               case Drained => UpdateRelayInterests(Put(w1, sid, s.(t2c := [], t2cOff := 0)), sid)
  {
    hide Flush, CloseConnection, UpdateRelayInterests, Slice;
    var s := w.heap[sid];
    var f := Flush(s.t2c, s.t2cOff, sends);
    var w1 := SentDown(w, sid, f.off);
    assert w1.heap[sid := s.(t2c := [], t2cOff := 0)] == w.heap[sid := s.(t2c := [], t2cOff := 0)];
  }

  /** The world after the bytes up to `off` went to the target. */
  ghost function SentUp(w: World, sid: Sid, off: nat): World
    requires sid in w.heap
  {
    var s := w.heap[sid];
    var sent := Slice(s.c2t, s.c2tOff, off);
    w.(heap := w.heap[sid := s.(c2tOff := off)], hist := NotedUp(w.hist, sid, sent),
       metrics := w.metrics.(upstream := w.metrics.upstream + |sent|))
  }

  lemma FlushedUp(w: World, sid: Sid, sends: seq<Send>)
    requires sid in w.heap
    ensures var s := w.heap[sid]; var f := Flush(s.c2t, s.c2tOff, sends); var w1 := SentUp(w, sid, f.off);
            TargetFlush(w, sid, sends)
            == match f.end
               case Blocked => w1
               case Broken => CloseConnection(w1, sid)
               case Drained => UpdateRelayInterests(Put(w1, sid, s.(c2t := [], c2tOff := 0)), sid)
  {
    hide Flush, CloseConnection, UpdateRelayInterests, Slice;
    var s := w.heap[sid];
    var f := Flush(s.c2t, s.c2tOff, sends);
    var w1 := SentUp(w, sid, f.off);
    assert w1.heap[sid := s.(c2t := [], c2tOff := 0)] == w.heap[sid := s.(c2t := [], c2tOff := 0)];
  }

  /** The end of a successful connect: the reply goes out, then the relay. */
  ghost function EnteredRelay(w: World, sid: Sid): World {
    if sid !in w.heap then Fault(w)
    else
      var s := w.heap[sid];
      var w1 := Put(w, sid, s.(writeBuf := RequestResponse(REPLY_SUCCESS), writeOff := 0, stage := Relay));
      if s.clientFd.Some? then SetInterest(w1, s.clientFd.value, WRITE) else w1
  }

  lemma ConnectedIs(w: World, sid: Sid)
    requires sid in w.heap
    ensures var w0 := MarkLastTry(w, sid, Connected); var h := Past(w0, sid);
            TargetConnected(w, sid)
            == EnteredRelay(LogAccess(Remember(w0, sid, h.(replies := h.replies + [REPLY_SUCCESS], succeeded := true))
                                      .(metrics := w0.metrics.(successful := w0.metrics.successful + 1)), sid, true), sid)
  {
    hide LogAccess, Put, SetInterest;
  }

  /** A server that handles any events from the start is in a state the theorems about runs are about. */
  method ServeFromStart(events: seq<Event>) returns (server: Server)
    ensures fresh(server) && fresh(server.repr) && server.Valid() && server.Abs() == Run(START, events)
    ensures Inv(server.Abs()) && !server.fault && !server.staleErrnoTested
  {
    server := new Server();
    server.Serve(events);
    Reachable(events);
  }

  /** And when it is destroyed after that, with resolver threads still running, it stays in a state the theorems about
      ownership are about. */
  method ServeThenStop(events: seq<Event>, steps: seq<Winding>) returns (server: Server)
    ensures fresh(server) && server.Valid() && server.Abs() == Reached(events, steps)
    ensures Core(server.Abs()) && !server.fault && !server.staleErrnoTested
  {
    hide Inv, Core, Run, WindDown;
    server := ServeFromStart(events);
    server.Destroy(steps);
    ReachedCore(events, steps);
    NothingIsTouchedAfterItIsGone(events, steps);
  }
}
