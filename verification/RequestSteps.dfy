/** From an accepted CONNECT request to a relay or a refusal: target_connection_begin, target_write while connecting,
    and target_connection_on_resolve. */
module RequestSteps {
  import opened Basics
  import opened Socks5
  import opened Proxy
  import opened Invariant
  import opened Frames
  import opened Local
  import opened RelaySteps
  import opened Structure
  import opened ConnectSteps

  /** A session that settles once its read buffer is dropped. */
  ghost predicate Nearly(v: View) {
    Settled(v.(s := v.s.(readBuf := [])))
  }

  /** The world between a handler's last change of ownership and its end. */
  ghost predicate NearlyDone(w: World, sid: Sid) {
    InvExcept(w, sid) && Live(w, sid) && Nearly(ViewOf(w, sid))
  }

  // ---------------------------------------------------------------- refusing

  ghost function Logged(v: View, success: bool): View {
    if v.s.accessLogged || !HasDestination(v.s) then v
    else v.(s := v.s.(accessLogged := true),
            h := v.h.(records := v.h.records + [Record(v.s.username, v.s.destination, v.s.port, success)]))
  }

  ghost function Turned(v: View, code: byte): View {
    var l := Logged(v.(h := v.h.(replies := v.h.replies + [code]), m := v.m.(failed := v.m.failed + 1)), false);
    l.(s := l.s.(writeBuf := RequestResponse(code), writeOff := 0, stage := Closing), client := WRITE)
  }

  lemma LogAccessIs(w: World, sid: Sid, success: bool)
    requires Live(w, sid)
    ensures LogAccess(w, sid, success) == Commit(w, sid, Logged(ViewOf(w, sid), success))
  {
    var v := Logged(ViewOf(w, sid), success);
    CommitNothing(w, sid);
    StoreIs(w, sid, v.s, v.h, w.metrics);
  }

  lemma MetersIs(w: World, sid: Sid, h: Hist, m: Metrics)
    requires Live(w, sid)
    ensures Remember(w, sid, h).(metrics := m) == Commit(w, sid, ViewOf(w, sid).(h := h, m := m))
  {
    StoreIs(w, sid, w.heap[sid], h, m);
    assert w.heap[sid := w.heap[sid]] == w.heap;
  }

  lemma RefuseIs(w: World, sid: Sid, code: byte)
    requires Live(w, sid)
    ensures SetInterest(Refuse(w, sid, code, true), w.heap[sid].clientFd.value, WRITE)
            == Commit(w, sid, Turned(ViewOf(w, sid), code))
  {
    hide LogAccess, Commit, SetInterest;
    var v := ViewOf(w, sid);
    var v1 := v.(h := v.h.(replies := v.h.replies + [code]), m := v.m.(failed := v.m.failed + 1));
    MetersIs(w, sid, v1.h, v1.m);
    CommitView(w, sid, v1);
    var w1 := Commit(w, sid, v1);
    LogAccessIs(w1, sid, false);
    var v2 := Logged(v1, false);
    CommitTwice(w, sid, v1, v2);
    CommitView(w, sid, v2);
    var w2 := Commit(w, sid, v2);
    var v3 := v2.(s := v2.s.(writeBuf := RequestResponse(code), writeOff := 0, stage := Closing));
    PutIs(w2, sid, v3.s);
    CommitTwice(w, sid, v2, v3);
    CommitView(w, sid, v3);
    SetInterestIs(Commit(w, sid, v3), sid, WRITE);
    CommitTwice(w, sid, v3, v3.(client := WRITE));
  }

  /** A session without a target that may be refused with `code`. */
  ghost predicate Refusable(v: View, code: byte) {
    && Quiet(v.s) && NoReply(v.s) && v.s.job.None? && v.s.targetFd.None? && v.target.None?
    && Flow(v.s, v.h) && v.h.ending == Open && Unanswered(v.s, v.h) && HistOk(v.h)
    && (CandidatesKnown(v.h) ==>
          Addresses(v.h.tried) == v.h.candidates && AllFailed(v.h.tried) && code == ReplyForErrno(LastErrno(v.h.tried)))
  }

  lemma TurnedMoves(v: View, code: byte)
    requires Refusable(v, code)
    ensures var t := Turned(v, code); SameTies(v, t) && MetersMatch(v, t) && HistOk(t.h) && Nearly(t)
  {
    hide HistOk, Addresses, AllFailed, LastErrno, DecideGreeting, DecideAuth, DecideRequest;
    TurnedHist(v, code);
    if HasDestination(v.s) {} else {}
  }

  lemma TurnedHist(v: View, code: byte)
    requires Refusable(v, code)
    ensures HistOk(Turned(v, code).h)
  {
    hide Quiet, NoReply, Flow, Addresses, DecideGreeting, DecideAuth, ReplyForErrno, RequestResponse;
    if HasDestination(v.s) {} else {}
  }

  /** The refusal of a name that led to no list is explained by its lookup. */
  lemma TurnedOwn(w: World, sid: Sid, code: byte)
    requires Live(w, sid) && OwnAnswer(w, sid) && w.hist[sid].replies == []
    requires Unresolved(w.hist[sid]) ==> Explains(w.origins, w.hist[sid], code)
    ensures OwnAnswer(Commit(w, sid, Turned(ViewOf(w, sid), code)), sid)
  {
    hide Filter, ReplyForGaiError, Explains;
    ExplainsStill(w.origins, w.hist[sid], Turned(ViewOf(w, sid), code).h, code);
  }

  lemma ExplainsStill(origins: seq<Origin>, h: Hist, h': Hist, code: byte)
    requires h'.lookup == h.lookup
    ensures Explains(origins, h', code) == Explains(origins, h, code)
  {
  }

  lemma RefuseKeeps(w: World, sid: Sid, code: byte)
    requires InvExcept(w, sid) && Live(w, sid) && Refusable(ViewOf(w, sid), code)
    requires Unresolved(w.hist[sid]) ==> Explains(w.origins, w.hist[sid], code)
    ensures var r := SetInterest(Refuse(w, sid, code, true), w.heap[sid].clientFd.value, WRITE);
            NearlyDone(r, sid) && r.heap[sid].readBuf == w.heap[sid].readBuf
  {
    hide InvExcept, Refusable, HistOk, OwnAnswer, Explains, MetersMatch;
    var v := ViewOf(w, sid);
    RefuseIs(w, sid, code);
    TurnedMoves(v, code);
    OwnsAnswer(w, sid);
    RefusableIsUnanswered(v, code);
    TurnedOwn(w, sid, code);
    CommitAsks(w, sid, Turned(v, code));
    CommitView(w, sid, Turned(v, code));
  }

  lemma OwnsAnswer(w: World, sid: Sid)
    requires InvExcept(w, sid) && Live(w, sid)
    ensures OwnAnswer(w, sid)
  {
    hide Linkage, Phase, Accounts, HistOk, SessionOk, OwnAnswer, OwnRequests;
    SidIsKnown(w, sid);
  }

  lemma RefusableIsUnanswered(v: View, code: byte)
    requires Refusable(v, code)
    ensures v.h.replies == []
  {
  }

  // ---------------------------------------------------------------- after an attempt

  lemma BegunSettles(v: View)
    requires Begun(v)
    ensures Moved(v, v.(client := NOOP)) && Nearly(v.(client := NOOP))
  {
  }

  lemma TryingIsRefusable(v: View)
    requires Trying(v, []) && v.s.cursor == []
    ensures Refusable(v, ReplyForErrno(v.s.lastError)) && !Unresolved(v.h)
  {
    assert Addresses(v.h.tried) + [] + [] == Addresses(v.h.tried);
  }

  /** target_connection_begin and target_connection_on_resolve after starting a connection. */
  lemma AfterStartKeeps(w: World, sid: Sid, r: Started)
    requires Live(w, sid) && Attempted(w, sid, r) && (!r.ok ==> r.w.heap[sid].cursor == [])
    ensures var r' := AfterStart(r, w.heap[sid].clientFd.value, sid);
            NearlyDone(r', sid) && r'.heap[sid].readBuf == w.heap[sid].readBuf
  {
    hide InvExcept, Begun, Trying;
    var v := ViewOf(r.w, sid);
    if r.ok {
      BegunSettles(v);
      SetInterestIs(r.w, sid, NOOP);
      CommitKeeps(r.w, sid, v.(client := NOOP));
      CommitView(r.w, sid, v.(client := NOOP));
    } else {
      TryingIsRefusable(v);
      RefuseKeeps(r.w, sid, ReplyForErrno(v.s.lastError));
    }
  }

  // ---------------------------------------------------------------- target_connection_begin

  ghost function WithRequest(v: View, request: ConnectRequest): View {
    v.(s := v.s.(lastError := 0, port := request.port, accessLogged := false,
                 destination := if request.atyp == ATYP_DOMAIN then Named(CString(request.address))
                                else Numeric(request.address)),
       h := v.h.(request := Some(request)))
  }

  ghost function WithCandidate(v: View, request: ConnectRequest): View {
    var v1 := WithRequest(v, request);
    v1.(h := v1.h.(candidates := [Literal(request)]))
  }

  /** A session waiting for the request, whose read buffer may be decided by now. */
  ghost predicate AtRequest(v: View) {
    && v.s.stage == Request && Quiet(v.s) && NoTarget(v.s) && NoReply(v.s) && v.target.None?
    && Story(v.s, v.h) && HistOk(v.h)
  }

  lemma NothingTried()
    ensures Filter([]) == [] && Addresses([]) == [] && AllFailed([]) && !EndsWith([], Connected) && LastErrno([]) == 0
  {
  }

  lemma AddressMoves(v: View, request: ConnectRequest)
    requires AtRequest(v) && request.atyp != ATYP_DOMAIN
    ensures var v1 := WithCandidate(v, request);
            SameTies(v, v1) && MetersMatch(v, v1) && Trying(v1, [Literal(request)])
  {
    hide Filter, Addresses, AllFailed, EndsWith, LastErrno;
    NothingTried();
    var address := Literal(request);
    assert [] + [address] + [] == [address];
  }

  lemma NameMoves(v: View, request: ConnectRequest)
    requires AtRequest(v) && request.atyp == ATYP_DOMAIN
    ensures var v1 := WithRequest(v, request);
            SameTies(v, v1) && MetersMatch(v, v1) && HistOk(v1.h) && Refusable(v1, REPLY_GENERAL_FAILURE)
  {
    hide HistOk, Filter, Addresses, AllFailed, EndsWith, LastErrno, DecideGreeting, DecideAuth, DecideRequest;
    RequestHist(v, request);
    NothingTried();
  }

  lemma RequestHist(v: View, request: ConnectRequest)
    requires AtRequest(v)
    ensures HistOk(WithRequest(v, request).h)
  {
    hide Filter, Addresses, AllFailed, EndsWith, LastErrno, DecideGreeting, DecideAuth, DecideRequest, Quiet, NoTarget, NoReply;
    NothingTried();
  }

  /** The world handed to the branches of target_connection_begin. */
  lemma BeginIs(w: World, sid: Sid, request: ConnectRequest, io: Io)
    requires Live(w, sid) && w.heap[sid].addresses.None? && w.heap[sid].job.None?
    ensures var v := ViewOf(w, sid); var fd := w.heap[sid].clientFd.value;
            Begin(w, fd, sid, request, io) ==
            if request.atyp == ATYP_DOMAIN
            then BeginLookup(Commit(w, sid, WithRequest(v, request)), fd, sid, request, io)
            else AfterStart(StartConnection(Commit(w, sid, WithCandidate(v, request)), sid, Literal(request),
                                            FirstAttempt(io.attempts)), fd, sid)
  {
    hide StartConnection, BeginLookup, AfterStart;
    var v := ViewOf(w, sid);
    var v1 := WithRequest(v, request);
    StoreIs(w, sid, v1.s, v1.h, w.metrics);
    CommitView(w, sid, v1);
    var w1 := Commit(w, sid, v1);
    if request.atyp != ATYP_DOMAIN {
      var v2 := WithCandidate(v, request);
      MetersIs(w1, sid, v2.h, w1.metrics);
      CommitTwice(w, sid, v1, v2);
    }
  }

  lemma OwnCandidate(w: World, sid: Sid, request: ConnectRequest)
    requires Live(w, sid) && AtRequest(ViewOf(w, sid))
    ensures request.atyp != ATYP_DOMAIN ==> OwnAnswer(Commit(w, sid, WithCandidate(ViewOf(w, sid), request)), sid)
    ensures request.atyp == ATYP_DOMAIN ==> OwnAnswer(Commit(w, sid, WithRequest(ViewOf(w, sid), request)), sid)
  {
  }

  lemma BeginAddressKeeps(w: World, sid: Sid, request: ConnectRequest, io: Io)
    requires InvExcept(w, sid) && Live(w, sid) && AtRequest(ViewOf(w, sid)) && request.atyp != ATYP_DOMAIN
    ensures NearlyDone(Begin(w, w.heap[sid].clientFd.value, sid, request, io), sid)
  {
    hide InvExcept, AtRequest, Begin, StartConnection, AfterStart, Trying;
    var v := ViewOf(w, sid);
    var v1 := WithCandidate(v, request);
    assert w.heap[sid].addresses.None? && w.heap[sid].job.None? by { AtRequestIsBare(v); }
    BeginIs(w, sid, request, io);
    AddressMoves(v, request);
    OwnCandidate(w, sid, request);
    assert HistOk(v1.h) by { TryingIsOk(v1, [Literal(request)]); }
    CommitAsks(w, sid, v1);
    CommitView(w, sid, v1);
    var w1 := Commit(w, sid, v1);
    var r := StartConnection(w1, sid, Literal(request), FirstAttempt(io.attempts));
    StartConnectionKeeps(w1, sid, Literal(request), FirstAttempt(io.attempts));
    assert w1.heap[sid].cursor == [] by { AtRequestIsBare(v); }
    AfterStartKeeps(w1, sid, r);
  }

  lemma AtRequestIsBare(v: View)
    requires AtRequest(v)
    ensures v.s.addresses.None? && v.s.job.None? && v.s.cursor == [] && v.s.targetFd.None?
    ensures v.h.lookup.None? && v.h.resolved.None? && v.h.replies == []
  {
  }

  lemma TryingIsOk(v: View, next: seq<Address>)
    requires Trying(v, next)
    ensures HistOk(v.h)
  {
  }

  /** A session whose lookup was just started. */
  ghost function LookingUp(v: View, j: Jid): View {
    v.(s := v.s.(job := Some(j), stage := Resolving), h := v.h.(lookup := Some(j)))
  }

  lemma LookupSettles(v: View, request: ConnectRequest, j: Jid)
    requires AtRequest(v) && request.atyp == ATYP_DOMAIN
    ensures var v1 := LookingUp(WithRequest(v, request), j); Nearly(v1.(client := NOOP)) && HistOk(v1.h)
  {
    hide HistOk, Filter, Addresses, AllFailed, EndsWith, LastErrno, DecideGreeting, DecideAuth, DecideRequest;
    LookupHist(v, request, j);
    NothingTried();
  }

  lemma LookupHist(v: View, request: ConnectRequest, j: Jid)
    requires AtRequest(v)
    ensures HistOk(LookingUp(WithRequest(v, request), j).h)
  {
    hide Filter, Addresses, AllFailed, EndsWith, LastErrno, DecideGreeting, DecideAuth, DecideRequest, Quiet, NoTarget, NoReply;
    NothingTried();
  }

  /** start_target_resolution: a job, a thread and a waiting session. */
  lemma BeginLookupIs(w: World, sid: Sid, request: ConnectRequest, io: Io)
    requires Live(w, sid) && io.resolverStarts
    ensures var fd := w.heap[sid].clientFd.value;
            var a := Asked(w, sid, CString(request.address), request.port);
            && Live(a, sid)
            && BeginLookup(w, fd, sid, request, io) == SetInterest(Commit(a, sid, LookingUp(ViewOf(w, sid), |w.origins|)), fd, NOOP)
  {
    hide SetInterest, CString;
    var a := Asked(w, sid, CString(request.address), request.port);
    var v := LookingUp(ViewOf(w, sid), |w.origins|);
    AskedView(w, sid, CString(request.address), request.port);
    StoreIs(a, sid, v.s, v.h, w.metrics);
    assert a.heap[sid := v.s] == w.heap[sid := v.s];
  }

  lemma AskedView(w: World, sid: Sid, name: seq<byte>, port: nat)
    requires Live(w, sid)
    ensures var r := Asked(w, sid, name, port); var v := ViewOf(w, sid);
            Live(r, sid) && ViewOf(r, sid) == v.(s := v.s.(job := Some(|w.origins|), stage := Resolving))
  {
  }

  /** The started lookup is the session's own. */
  lemma LookupOwn(w: World, sid: Sid)
    requires InvExcept(w, sid) && Live(w, sid) && w.heap[sid].job.Some? && w.hist[sid].replies == [] && w.hist[sid].resolved.None?
    ensures OwnAnswer(Commit(w, sid, LookingUp(ViewOf(w, sid), w.heap[sid].job.value)), sid)
  {
    hide InvExcept;
    OwnsAnswer(w, sid);
  }

  lemma BeginNameKeeps(w: World, sid: Sid, request: ConnectRequest, io: Io)
    requires InvExcept(w, sid) && Live(w, sid) && AtRequest(ViewOf(w, sid)) && request.atyp == ATYP_DOMAIN
    ensures NearlyDone(Begin(w, w.heap[sid].clientFd.value, sid, request, io), sid)
  {
    hide InvExcept, AtRequest, Begin, Refusable, HistOk, Refuse, OwnAnswer, Asked, SetInterest, Nearly, Commit;
    var v := ViewOf(w, sid);
    var v1 := WithRequest(v, request);
    AtRequestIsBare(v);
    BeginIs(w, sid, request, io);
    NameMoves(v, request);
    OwnCandidate(w, sid, request);
    CommitAsks(w, sid, v1);
    CommitView(w, sid, v1);
    var w1 := Commit(w, sid, v1);
    if !io.resolverStarts {
      RefuseKeeps(w1, sid, REPLY_GENERAL_FAILURE);
    } else {
      var name := CString(request.address);
      BeginLookupIs(w1, sid, request, io);
      AskedKeeps(w1, sid, name, request.port);
      AskedView(w1, sid, name, request.port);
      var w2 := Asked(w1, sid, name, request.port);
      var v2 := LookingUp(v1, |w1.origins|);
      LookupSettles(v, request, |w1.origins|);
      LookupOwn(w2, sid);
      CommitAsks(w2, sid, v2);
      CommitView(w2, sid, v2);
      SettleInterest(Commit(w2, sid, v2), sid, NOOP);
    }
  }

  lemma HistIsOk(w: World, sid: Sid)
    requires InvExcept(w, sid) && Live(w, sid)
    ensures HistOk(w.hist[sid])
  {
    hide Linkage, Resolution, Accounts, HistOk, SessionOk;
  }

  /** Setting the client's interest last. */
  lemma SettleInterest(w: World, sid: Sid, interest: Interest)
    requires InvExcept(w, sid) && Live(w, sid) && Nearly(ViewOf(w, sid).(client := interest))
    ensures NearlyDone(SetInterest(w, w.heap[sid].clientFd.value, interest), sid)
  {
    hide InvExcept, HistOk, Nearly, SetInterest, Commit;
    var v := ViewOf(w, sid).(client := interest);
    HistIsOk(w, sid);
    SetInterestIs(w, sid, interest);
    CommitKeeps(w, sid, v);
    CommitView(w, sid, v);
  }
}
