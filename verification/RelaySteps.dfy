/** What client_write, target_read and the relay parts of client_read and target_write do to their session. */
module RelaySteps {
  import opened Basics
  import opened Socks5
  import opened Proxy
  import opened Invariant
  import opened Frames
  import opened Local

  /** The outcome of a handler: how it leaves session `sid` of `w`. */
  ghost predicate Leaves(w: World, sid: Sid, r: World, e: Exit) {
    && Live(w, sid)
    && r == Apply(w, sid, e)
    && Moved(ViewOf(w, sid), e.v)
    && (e.Stay? ==> Settled(e.v))
  }

  /** The facts a handler starts from. */
  ghost predicate Sound(w: World, sid: Sid) {
    Live(w, sid) && Settled(ViewOf(w, sid)) && HistOk(w.hist[sid])
  }

  /** A started relay apart from its interests. */
  ghost predicate RelayShape(s: Session) {
    && s.stage == Relay && s.relayStarted && s.readBuf == [] && s.job.None? && s.targetFd.Some?
    && NoReply(s) && Loaded(s.c2t, s.c2tOff) && Loaded(s.t2c, s.t2cOff)
  }

  /** The interests that client_session_update_relay_interests computes. */
  ghost function Rearmed(v: View): View {
    v.(client := Interest(v.s.c2t == [], |v.s.t2c| > v.s.t2cOff),
       target := Some(Interest(v.s.t2c == [], |v.s.c2t| > v.s.c2tOff)))
  }

  lemma RearmIs(w: World, sid: Sid)
    requires Live(w, sid) && w.heap[sid].relayStarted && w.heap[sid].targetFd.Some?
    ensures UpdateRelayInterests(w, sid) == Commit(w, sid, Rearmed(ViewOf(w, sid)))
  {
    var c := Commit(w, sid, Rearmed(ViewOf(w, sid)));
    assert c.heap == w.heap && c.hist == w.hist;
    assert c.table == UpdateRelayInterests(w, sid).table;
  }

  /** Recomputing the interests after a change `v` of the session. */
  lemma CommitThenRearm(w: World, sid: Sid, v: View)
    requires Live(w, sid) && Kept(w.heap[sid], v.s) && v.target.Some? && v.s.targetFd.Some? && v.s.relayStarted
    ensures Live(Commit(w, sid, v), sid)
    ensures UpdateRelayInterests(Commit(w, sid, v), sid) == Commit(w, sid, Rearmed(v))
  {
    CommitView(w, sid, v);
    RearmIs(Commit(w, sid, v), sid);
    CommitTwice(w, sid, v, Rearmed(v));
  }

  lemma PutIs(w: World, sid: Sid, s: Session)
    requires Live(w, sid)
    ensures Put(w, sid, s) == Commit(w, sid, ViewOf(w, sid).(s := s))
  {
    var c := Commit(w, sid, ViewOf(w, sid).(s := s));
    assert c.table == w.table && c.hist == w.hist;
  }

  lemma SetInterestIs(w: World, sid: Sid, interest: Interest)
    requires Live(w, sid)
    ensures SetInterest(w, w.heap[sid].clientFd.value, interest) == Commit(w, sid, ViewOf(w, sid).(client := interest))
  {
    var c := Commit(w, sid, ViewOf(w, sid).(client := interest));
    assert c.heap == w.heap && c.hist == w.hist;
    assert c.table == SetInterest(w, w.heap[sid].clientFd.value, interest).table;
  }

  /** Storing a session together with its history and the meters. */
  lemma StoreIs(w: World, sid: Sid, s: Session, h: Hist, m: Metrics)
    requires Live(w, sid)
    ensures Put(Remember(w, sid, h).(metrics := m), sid, s) == Commit(w, sid, ViewOf(w, sid).(s := s, h := h, m := m))
  {
    var c := Commit(w, sid, ViewOf(w, sid).(s := s, h := h, m := m));
    assert c.table == w.table;
  }

  // ---------------------------------------------------------------- the handlers on their session's view

  /** client_write once the whole reply went out. */
  ghost function Replied(v: View): Exit {
    var v1 := v.(s := v.s.(writeBuf := [], writeOff := 0));
    if v.s.stage == Closing then Drop(v1)
    else if v.s.stage == Relay then Stay(Rearmed(v1.(s := v1.s.(relayStarted := true))))
    else Stay(v1.(client := READ))
  }

  /** The target-to-client send loop: what left the buffer was sent. */
  ghost function DownFlushed(v: View, sends: seq<Send>): Exit {
    var f := Flush(v.s.t2c, v.s.t2cOff, sends);
    var sent := Slice(v.s.t2c, v.s.t2cOff, f.off);
    var v1 := v.(h := v.h.(t2cOut := v.h.t2cOut + sent), m := v.m.(downstream := v.m.downstream + |sent|));
    match f.end
    case Blocked => Stay(v1.(s := v.s.(t2cOff := f.off)))
    case Broken => End(v1.(s := v.s.(t2cOff := f.off)))
    case Drained => Stay(Rearmed(v1.(s := v.s.(t2c := [], t2cOff := 0))))
  }

  /** The client-to-target send loop, likewise. */
  ghost function UpFlushed(v: View, sends: seq<Send>): Exit {
    var f := Flush(v.s.c2t, v.s.c2tOff, sends);
    var sent := Slice(v.s.c2t, v.s.c2tOff, f.off);
    var v1 := v.(h := v.h.(c2tOut := v.h.c2tOut + sent), m := v.m.(upstream := v.m.upstream + |sent|));
    match f.end
    case Blocked => Stay(v1.(s := v.s.(c2tOff := f.off)))
    case Broken => End(v1.(s := v.s.(c2tOff := f.off)))
    case Drained => Stay(Rearmed(v1.(s := v.s.(c2t := [], c2tOff := 0))))
  }

  /** client_write */
  ghost function Written(v: View, sends: seq<Send>): Exit {
    var f := Flush(v.s.writeBuf, v.s.writeOff, sends);
    var v1 := v.(s := v.s.(writeOff := f.off));
    match f.end
    case Blocked => Stay(v1)
    case Broken => End(v1)
    case Drained => if |v.s.writeBuf| > 0 then Replied(v) else DownFlushed(v, sends)
  }

  ghost function DownReceived(v: View, got: seq<byte>): View {
    Rearmed(v.(s := v.s.(t2c := got, t2cOff := 0), h := v.h.(t2cIn := v.h.t2cIn + got)))
  }

  ghost function UpReceived(v: View, got: seq<byte>): View {
    Rearmed(v.(s := v.s.(c2t := got, c2tOff := 0), h := v.h.(c2tIn := v.h.c2tIn + got)))
  }

  /** target_read */
  ghost function DownRead(v: View, io: Io): Exit {
    if |v.s.t2c| != 0 || io.recv.RecvBlocked? then Stay(v)
    else if io.recv.RecvFailed? then End(v)
    else
      var got := Take(io.recv.bytes, BUFFER_SIZE);
      if got == [] then End(v.(h := v.h.(ending := TargetStreamEnded))) else Written(DownReceived(v, got), io.sends)
  }

  /** client_read in the relay */
  ghost function UpRead(v: View, io: Io): Exit {
    if |v.s.c2t| != 0 || io.recv.RecvBlocked? then Stay(v)
    else if io.recv.RecvFailed? then End(v)
    else
      var got := Take(io.recv.bytes, BUFFER_SIZE);
      if got == [] then End(v.(h := v.h.(ending := ClientStreamEnded))) else UpFlushed(UpReceived(v, got), io.sends)
  }

  // ---------------------------------------------------------------- they keep their session settled

  ghost predicate Good(v: View) {
    Settled(v) && HistOk(v.h) && (v.target.Some? <==> v.s.targetFd.Some?)
  }

  ghost predicate Follows(v: View, e: Exit) {
    Moved(v, e.v) && (e.Stay? ==> Settled(e.v))
  }

  /** Only the relayed bytes of a history change. */
  ghost predicate SameStory(h: Hist, h': Hist) {
    h' == h.(c2tIn := h'.c2tIn, c2tOut := h'.c2tOut, t2cIn := h'.t2cIn, t2cOut := h'.t2cOut)
  }

  /** In the relay, any change of buffers and histories that keeps both flows is fine. */
  lemma RelayMoves(v: View, v': View)
    requires Good(v) && RelayShape(v.s)
    requires v' == v.(s := v'.s, h := v'.h, m := v'.m, client := v'.client, target := v'.target)
    requires v'.s == v.s.(c2t := v'.s.c2t, c2tOff := v'.s.c2tOff, t2c := v'.s.t2c, t2cOff := v'.s.t2cOff)
    requires SameStory(v.h, v'.h) && Flow(v'.s, v'.h) && MetersMatch(v, v') && v'.target.Some?
    requires v'.m.concurrent == v.m.concurrent && v'.m.historical == v.m.historical
    ensures Moved(v, v') && Story(v'.s, v'.h)
  {
  }

  /** Sending `buffer[off..off']` moves the boundary between what was sent and what is buffered. */
  lemma SplitAt(received: seq<byte>, sent: seq<byte>, buffer: seq<byte>, off: nat, off': nat)
    requires off <= off' <= |buffer| && received == sent + buffer[off..]
    ensures received == sent + Slice(buffer, off, off') + buffer[off'..]
    ensures off' == |buffer| ==> received == sent + Slice(buffer, off, off')
  {
    assert buffer[off..] == buffer[off..off'] + buffer[off'..];
  }

  lemma DownFlushedFollows(v: View, sends: seq<Send>)
    requires Good(v) && RelayShape(v.s)
    ensures Follows(v, DownFlushed(v, sends))
  {
    var f := Flush(v.s.t2c, v.s.t2cOff, sends);
    var e := DownFlushed(v, sends);
    SplitAt(v.h.t2cIn, v.h.t2cOut, v.s.t2c, v.s.t2cOff, f.off);
    RelayMoves(v, e.v);
  }

  lemma UpFlushedFollows(v: View, sends: seq<Send>)
    requires Good(v) && RelayShape(v.s)
    ensures Follows(v, UpFlushed(v, sends))
  {
    var f := Flush(v.s.c2t, v.s.c2tOff, sends);
    var e := UpFlushed(v, sends);
    SplitAt(v.h.c2tIn, v.h.c2tOut, v.s.c2t, v.s.c2tOff, f.off);
    RelayMoves(v, e.v);
  }

  lemma NothingIsUndecided()
    ensures DecideAuth([], map[]) == AuthWait && DecideRequest([]) == RequestWait
  {
  }

  lemma RepliedFollows(v: View)
    requires Good(v) && ReplyPending(v.s)
    ensures Follows(v, Replied(v))
  {
    hide DecideAuth, DecideRequest, DecideGreeting, HistOk;
    NothingIsUndecided();
    match v.s.stage {
      case Closing =>
      case Relay =>
      case _ =>
    }
  }

  /** A reply that went out in part. */
  lemma PartlyWritten(v: View, off: nat)
    requires Good(v) && ReplyPending(v.s) && off < |v.s.writeBuf|
    ensures Follows(v, Stay(v.(s := v.s.(writeOff := off))))
  {
    hide HistOk, DecideAuth, DecideRequest, DecideGreeting;
    match v.s.stage {
      case Closing =>
      case Relay =>
      case _ =>
    }
  }

  lemma WrittenFollows(v: View, sends: seq<Send>)
    requires Good(v) && (ReplyPending(v.s) || RelayShape(v.s))
    ensures Follows(v, Written(v, sends))
  {
    var f := Flush(v.s.writeBuf, v.s.writeOff, sends);
    hide Flush, Replied, DownFlushed, Good, Settled, Moved;
    if f.end == Drained {
      if |v.s.writeBuf| > 0 { RepliedFollows(v); } else { DownFlushedFollows(v, sends); }
    } else {
      PartlyWritten(v, f.off);
    }
  }

  lemma DownReceivedMoves(v: View, got: seq<byte>)
    requires Good(v) && RelayShape(v.s) && v.s.t2c == [] && 0 < |got| <= BUFFER_SIZE
    ensures Moved(v, DownReceived(v, got)) && Good(DownReceived(v, got)) && RelayShape(DownReceived(v, got).s)
  {
    assert got[0..] == got;
    RelayMoves(v, DownReceived(v, got));
  }

  lemma UpReceivedMoves(v: View, got: seq<byte>)
    requires Good(v) && RelayShape(v.s) && v.s.c2t == [] && 0 < |got| <= BUFFER_SIZE
    ensures Moved(v, UpReceived(v, got)) && Good(UpReceived(v, got)) && RelayShape(UpReceived(v, got).s)
  {
    assert got[0..] == got;
    RelayMoves(v, UpReceived(v, got));
  }

  /** A direction is read only when its buffer is empty, so at the end of its stream all of it was forwarded. */
  lemma EndedMoves(v: View, ending: Ending)
    requires Good(v) && RelayShape(v.s)
    requires ending == ClientStreamEnded ==> v.s.c2t == []
    requires ending == TargetStreamEnded ==> v.s.t2c == []
    ensures Moved(v, v.(h := v.h.(ending := ending)))
  {
  }

  // ---------------------------------------------------------------- the handlers do just that

  lemma ClientFlushIs(w: World, sid: Sid, sends: seq<Send>)
    requires Live(w, sid) && w.heap[sid].relayStarted && w.heap[sid].targetFd.Some?
    ensures ClientFlush(w, sid, sends) == Apply(w, sid, DownFlushed(ViewOf(w, sid), sends))
  {
    hide Flush, Slice, CloseConnection, UpdateRelayInterests, Commit;
    var s := w.heap[sid];
    var f := Flush(s.t2c, s.t2cOff, sends);
    var sent := Slice(s.t2c, s.t2cOff, f.off);
    var h := w.hist[sid].(t2cOut := w.hist[sid].t2cOut + sent);
    var m := w.metrics.(downstream := w.metrics.downstream + |sent|);
    var s' := if f.end == Drained then s.(t2c := [], t2cOff := 0) else s.(t2cOff := f.off);
    StoreIs(w, sid, s', h, m);
    if f.end == Drained {
      CommitThenRearm(w, sid, ViewOf(w, sid).(s := s', h := h, m := m));
    }
  }

  lemma TargetFlushIs(w: World, sid: Sid, sends: seq<Send>)
    requires Live(w, sid) && w.heap[sid].relayStarted && w.heap[sid].targetFd.Some?
    ensures TargetFlush(w, sid, sends) == Apply(w, sid, UpFlushed(ViewOf(w, sid), sends))
  {
    hide Flush, Slice, CloseConnection, UpdateRelayInterests, Commit;
    var s := w.heap[sid];
    var f := Flush(s.c2t, s.c2tOff, sends);
    var sent := Slice(s.c2t, s.c2tOff, f.off);
    var h := w.hist[sid].(c2tOut := w.hist[sid].c2tOut + sent);
    var m := w.metrics.(upstream := w.metrics.upstream + |sent|);
    var s' := if f.end == Drained then s.(c2t := [], c2tOff := 0) else s.(c2tOff := f.off);
    StoreIs(w, sid, s', h, m);
    if f.end == Drained {
      CommitThenRearm(w, sid, ViewOf(w, sid).(s := s', h := h, m := m));
    }
  }

  lemma RepliedIs(w: World, sid: Sid, fd: Fd)
    requires Live(w, sid) && w.heap[sid].clientFd == Some(fd)
    requires w.heap[sid].stage == Relay ==> !w.heap[sid].relayStarted && w.heap[sid].targetFd.Some?
    ensures ClientReplied(Put(w, sid, w.heap[sid].(writeBuf := [], writeOff := 0)), fd, sid)
            == Apply(w, sid, Replied(ViewOf(w, sid)))
  {
    var s := w.heap[sid].(writeBuf := [], writeOff := 0);
    var v := ViewOf(w, sid).(s := s);
    PutIs(w, sid, s);
    CommitView(w, sid, v);
    var w1 := Put(w, sid, s);
    if s.stage == Relay {
      var started := v.(s := s.(relayStarted := true));
      PutIs(w1, sid, started.s);
      CommitTwice(w, sid, v, started);
      CommitThenRearm(w, sid, started);
    } else if s.stage != Closing {
      SetInterestIs(w1, sid, READ);
      CommitTwice(w, sid, v, v.(client := READ));
    }
  }

  lemma ClientWriteIs(w: World, fd: Fd, sid: Sid, sends: seq<Send>)
    requires Live(w, sid) && w.heap[sid].clientFd == Some(fd)
    requires w.heap[sid].stage == Relay && !w.heap[sid].relayStarted ==> w.heap[sid].targetFd.Some?
    requires (ReplyPending(w.heap[sid]) && !w.heap[sid].relayStarted) || RelayShape(w.heap[sid])
    ensures ClientWrite(w, fd, sid, sends) == Apply(w, sid, Written(ViewOf(w, sid), sends))
  {
    var s := w.heap[sid];
    var f := Flush(s.writeBuf, s.writeOff, sends);
    PutIs(w, sid, s.(writeOff := f.off));
    if f.end == Drained {
      if |s.writeBuf| > 0 { RepliedIs(w, sid, fd); } else { ClientFlushIs(w, sid, sends); }
    }
  }

  // ---------------------------------------------------------------- the handlers keep the world sound

  lemma WriteLeaves(w: World, fd: Fd, sid: Sid, sends: seq<Send>)
    requires Sound(w, sid) && w.heap[sid].clientFd == Some(fd)
    requires ReplyPending(w.heap[sid]) || RelayShape(w.heap[sid])
    ensures Leaves(w, sid, ClientWrite(w, fd, sid, sends), Written(ViewOf(w, sid), sends))
  {
    WrittenFollows(ViewOf(w, sid), sends);
    ClientWriteIs(w, fd, sid, sends);
  }

  lemma FlushLeaves(w: World, sid: Sid, sends: seq<Send>)
    requires Sound(w, sid) && RelayShape(w.heap[sid])
    ensures Leaves(w, sid, TargetFlush(w, sid, sends), UpFlushed(ViewOf(w, sid), sends))
  {
    UpFlushedFollows(ViewOf(w, sid), sends);
    TargetFlushIs(w, sid, sends);
  }

  /** A handler that first commits `v` and then leaves as `e` leaves the original as `e`. */
  lemma CommitThenLeave(w: World, sid: Sid, v: View, r: World, e: Exit)
    requires Live(w, sid) && Moved(ViewOf(w, sid), v)
    requires Leaves(Commit(w, sid, v), sid, r, e)
    ensures Leaves(w, sid, r, e)
  {
    CommitView(w, sid, v);
    CommitTwice(w, sid, v, e.v);
  }

  lemma EndedIs(w: World, sid: Sid, ending: Ending)
    requires Live(w, sid)
    ensures CloseConnection(Remember(w, sid, w.hist[sid].(ending := ending)), sid)
            == Apply(w, sid, End(ViewOf(w, sid).(h := w.hist[sid].(ending := ending))))
  {
    var s := w.heap[sid];
    StoreIs(w, sid, s, w.hist[sid].(ending := ending), w.metrics);
    assert w.heap[sid := s] == w.heap;
  }

  /** target_read: the end of the target's stream is recorded, anything received is buffered and offered. */
  lemma TargetReadLeaves(w: World, fd: Fd, sid: Sid, io: Io)
    requires Sound(w, sid) && RelayShape(w.heap[sid])
    ensures Leaves(w, sid, TargetRead(w, fd, sid, io), DownRead(ViewOf(w, sid), io))
  {
    hide Written, DownReceived, ClientWrite, CloseConnection, UpdateRelayInterests, Commit, Flow, Admitted, HistOk;
    var s := w.heap[sid];
    var v := ViewOf(w, sid);
    CommitNothing(w, sid);
    if |s.t2c| != 0 {
      RearmIs(w, sid);
      assert Rearmed(v) == v;
    } else if io.recv.Received? {
      var got := Take(io.recv.bytes, BUFFER_SIZE);
      if got == [] {
        EndedMoves(v, TargetStreamEnded);
        EndedIs(w, sid, TargetStreamEnded);
      } else {
        TargetReceived(w, sid, got, io);
      }
    }
  }

  lemma TargetReceived(w: World, sid: Sid, got: seq<byte>, io: Io)
    requires Sound(w, sid) && RelayShape(w.heap[sid]) && w.heap[sid].t2c == [] && 0 < |got| <= BUFFER_SIZE
    ensures var s := w.heap[sid]; var h := w.hist[sid];
            var w1 := Put(Remember(w, sid, h.(t2cIn := h.t2cIn + got)), sid, s.(t2c := got, t2cOff := 0));
            Leaves(w, sid, ClientWrite(UpdateRelayInterests(w1, sid), s.clientFd.value, sid, io.sends),
                   Written(DownReceived(ViewOf(w, sid), got), io.sends))
  {
    var v := ViewOf(w, sid);
    DownReceivedMoves(v, got);
    var v1 := DownReceived(v, got);
    StoreIs(w, sid, v1.s, v1.h, w.metrics);
    CommitThenRearm(w, sid, v.(s := v1.s, h := v1.h));
    CommitView(w, sid, v1);
    var w2 := Commit(w, sid, v1);
    var e := Written(v1, io.sends);
    WriteLeaves(w2, v.s.clientFd.value, sid, io.sends);
    CommitThenLeave(w, sid, v1, ClientWrite(w2, v.s.clientFd.value, sid, io.sends), e);
  }

  /** client_read in the relay stage, likewise. */
  lemma ReadRelayLeaves(w: World, fd: Fd, sid: Sid, io: Io)
    requires Sound(w, sid) && RelayShape(w.heap[sid])
    ensures Leaves(w, sid, ClientReadRelay(w, fd, sid, io), UpRead(ViewOf(w, sid), io))
  {
    hide UpFlushed, UpReceived, TargetWrite, CloseConnection, UpdateRelayInterests, Commit, Flow, Admitted, HistOk;
    var s := w.heap[sid];
    var v := ViewOf(w, sid);
    CommitNothing(w, sid);
    if |s.c2t| != 0 {
      RearmIs(w, sid);
      assert Rearmed(v) == v;
    } else if io.recv.Received? {
      var got := Take(io.recv.bytes, BUFFER_SIZE);
      if got == [] {
        EndedMoves(v, ClientStreamEnded);
        EndedIs(w, sid, ClientStreamEnded);
      } else {
        ClientReceived(w, sid, got, io);
      }
    }
  }

  lemma ClientReceived(w: World, sid: Sid, got: seq<byte>, io: Io)
    requires Sound(w, sid) && RelayShape(w.heap[sid]) && w.heap[sid].c2t == [] && 0 < |got| <= BUFFER_SIZE
    ensures var s := w.heap[sid]; var h := w.hist[sid];
            var w1 := Put(Remember(w, sid, h.(c2tIn := h.c2tIn + got)), sid, s.(c2t := got, c2tOff := 0));
            Leaves(w, sid, TargetWrite(UpdateRelayInterests(w1, sid), s.targetFd.value, sid, io),
                   UpFlushed(UpReceived(ViewOf(w, sid), got), io.sends))
  {
    var v := ViewOf(w, sid);
    UpReceivedMoves(v, got);
    var v1 := UpReceived(v, got);
    StoreIs(w, sid, v1.s, v1.h, w.metrics);
    CommitThenRearm(w, sid, v.(s := v1.s, h := v1.h));
    CommitView(w, sid, v1);
    var w2 := Commit(w, sid, v1);
    var e := UpFlushed(v1, io.sends);
    FlushLeaves(w2, sid, io.sends);
    CommitThenLeave(w, sid, v1, TargetFlush(w2, sid, io.sends), e);
  }
}
