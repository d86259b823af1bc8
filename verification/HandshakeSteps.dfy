/** What client_read does to its session while the handshake is going on, up to the start of a connection. */
module HandshakeSteps {
  import opened Basics
  import opened Socks5
  import opened Proxy
  import opened Invariant
  import opened Frames
  import opened Local
  import opened RelaySteps

  /** More bytes in the read buffer. */
  ghost function Longer(v: View, got: seq<byte>): View {
    v.(s := v.s.(readBuf := v.s.readBuf + got))
  }

  ghost function GreetingRead(v: View, users: UserMap): Exit {
    match DecideGreeting(v.s.readBuf, users)
    case GreetingWait => Stay(v)
    case GreetingDrop => Drop(v)
    case GreetingChoose(chosen) =>
      var next := if chosen == METHOD_USERNAME_PASSWORD then Auth
                  else if chosen == METHOD_NO_AUTH then Request else Closing;
      Stay(v.(s := Answering(v.s, GreetingResponse(chosen), next), client := WRITE,
              h := v.h.(greeting := Some(Decision(v.s.readBuf, users)))))
  }

  ghost function AuthRead(v: View, users: UserMap): Exit {
    var h := v.h.(auth := Some(Decision(v.s.readBuf, users)));
    match DecideAuth(v.s.readBuf, users)
    case AuthWait => Stay(v)
    case AuthReject => Stay(v.(s := Answering(v.s, AuthResponse(AUTH_FAILURE), Closing), client := WRITE, h := h))
    case AuthAccept(user) =>
      Stay(v.(s := Answering(v.s.(username := user), AuthResponse(AUTH_SUCCESS), Request), client := WRITE, h := h))
  }

  /** Refusing a request that never led to an attempt. */
  ghost function Refused(v: View, code: byte): View {
    v.(s := Answering(v.s, RequestResponse(code), Closing), client := WRITE,
       h := v.h.(replies := v.h.replies + [code]), m := v.m.(failed := v.m.failed + 1))
  }

  /** Before the request, recording a decided message keeps a history sound. */
  lemma DecisionNoted(h: Hist, greeting: Option<Decision>, auth: Option<Decision>)
    requires HistOk(h) && h.request.None?
    ensures HistOk(h.(greeting := greeting, auth := auth))
  {
    hide Addresses, AllFailed, EndsWith, LastErrno, Admitted;
  }

  /** An answer before the request: the next stage may be one that waits, or the closing one. */
  lemma AnswerFollows(v: View, s: Session, h: Hist)
    requires Good(v) && (v.s.stage == Greeting || (v.s.stage == Auth && NoReply(v.s)))
    requires s == v.s.(writeBuf := s.writeBuf, writeOff := 0, stage := s.stage, readBuf := [], username := s.username)
    requires 0 < |s.writeBuf| <= 10 && s.stage in {Auth, Request, Closing}
    requires h == v.h.(greeting := h.greeting, auth := h.auth)
    requires s.stage == Auth ==> h.auth.None? && s.username == ANONYMOUS && AskedForPassword(h)
    requires s.stage == Request ==> Admitted(h) && s.username == AdmittedName(h)
    requires s.stage == Closing ==> TurnedAway(h)
    requires s.writeBuf == PendingReply(s.stage, h)
    ensures Follows(v, Stay(v.(s := s, client := WRITE, h := h)))
  {
    hide Good, Settled, StageOk, Story, HistOk, Quiet, NoTarget, NoRequestYet, Admitted, TurnedAway, AskedForPassword, PendingReply;
    NegotiatingFacts(v);
    DecisionNoted(v.h, h.greeting, h.auth);
    AnswerSettles(v, s, h);
  }

  lemma NegotiatingFacts(v: View)
    requires Good(v) && (v.s.stage == Greeting || v.s.stage == Auth)
    ensures Quiet(v.s) && NoTarget(v.s) && NoRequestYet(v.h) && Flow(v.s, v.h) && v.h.ending == Open
    ensures v.target.None? && v.s.targetFd.None? && HistOk(v.h) && v.h.request.None?
  {
    hide HistOk, DecideGreeting, DecideAuth, DecideRequest;
  }

  lemma AnswerSettles(v: View, s: Session, h: Hist)
    requires Quiet(v.s) && NoTarget(v.s) && NoRequestYet(v.h) && Flow(v.s, v.h) && v.h.ending == Open && v.target.None?
    requires s == v.s.(writeBuf := s.writeBuf, writeOff := 0, stage := s.stage, readBuf := [], username := s.username)
    requires 0 < |s.writeBuf| <= 10 && s.stage in {Auth, Request, Closing}
    requires h == v.h.(greeting := h.greeting, auth := h.auth)
    requires s.stage == Auth ==> h.auth.None? && s.username == ANONYMOUS && AskedForPassword(h)
    requires s.stage == Request ==> Admitted(h) && s.username == AdmittedName(h)
    requires s.stage == Closing ==> TurnedAway(h)
    requires s.writeBuf == PendingReply(s.stage, h)
    ensures Settled(v.(s := s, client := WRITE, h := h))
  {
    hide DecideGreeting, DecideAuth, DecideRequest, Admitted, AdmittedName, TurnedAway, AskedForPassword, PendingReply;
    match s.stage {
      case Auth =>
      case Request =>
      case Closing =>
      case _ =>
    }
  }

  /** More input that decides nothing. */
  lemma WaitingFollows(v: View, got: seq<byte>)
    requires Good(v) && (v.s.stage == Greeting || v.s.stage == Auth) && NoReply(v.s) && Undecided(Longer(v, got).s)
    ensures Follows(v, Stay(Longer(v, got)))
  {
    hide HistOk, DecideGreeting, DecideAuth, DecideRequest;
  }

  lemma GreetingFollows(v: View, got: seq<byte>, users: UserMap)
    requires Good(v) && v.s.stage == Greeting
    ensures Follows(v, GreetingRead(Longer(v, got), users))
  {
    var b := v.s.readBuf + got;
    var e := GreetingRead(Longer(v, got), users);
    match DecideGreeting(b, users) {
      case GreetingWait =>
        assert Undecided(Longer(v, got).s);
        WaitingFollows(v, got);
      case GreetingDrop =>
        hide HistOk, DecideGreeting;
      case GreetingChoose(chosen) =>
        GreetingStory(v);
        assert match e.v.s.stage case Auth => AskedForPassword(e.v.h) case Request => Admitted(e.v.h) case _ => TurnedAway(e.v.h);
        hide HistOk, DecideGreeting, Settled;
        AnswerFollows(v, e.v.s, e.v.h);
    }
  }

  lemma GreetingStory(v: View)
    requires Settled(v) && v.s.stage == Greeting
    ensures v.h.auth.None? && v.s.username == ANONYMOUS && v.h.replies == []
  {
  }

  lemma AuthFollows(v: View, got: seq<byte>, users: UserMap)
    requires Good(v) && v.s.stage == Auth && NoReply(v.s)
    ensures Follows(v, AuthRead(Longer(v, got), users))
  {
    var b := v.s.readBuf + got;
    var e := AuthRead(Longer(v, got), users);
    match DecideAuth(b, users) {
      case AuthWait =>
        assert Undecided(Longer(v, got).s);
        WaitingFollows(v, got);
      case AuthReject =>
        assert TurnedAway(e.v.h) && v.h.replies == [];
        hide HistOk, DecideAuth, Settled, Admitted, AdmittedName;
        AnswerFollows(v, e.v.s, e.v.h);
      case AuthAccept(user) =>
        assert Admitted(e.v.h) && AdmittedName(e.v.h) == user;
        hide HistOk, DecideAuth, Settled, Admitted, AdmittedName;
        AnswerFollows(v, e.v.s, e.v.h);
    }
  }

  lemma RefusedFollows(v: View, got: seq<byte>, code: byte)
    requires Good(v) && v.s.stage == Request && NoReply(v.s) && code in {1, 7, 8}
    ensures Follows(v, Stay(Refused(Longer(v, got), code)))
  {
  }

  lemma ReadGreetingIs(w: World, fd: Fd, sid: Sid, got: seq<byte>, users: UserMap)
    requires Live(w, sid) && w.heap[sid].clientFd == Some(fd)
    ensures var v := ViewOf(w, sid); var w1 := Put(w, sid, Longer(v, got).s);
            ReadGreeting(w1, fd, sid, users) == Apply(w, sid, GreetingRead(Longer(v, got), users))
  {
    var v := Longer(ViewOf(w, sid), got);
    PutIs(w, sid, v.s);
    var e := GreetingRead(v, users);
    if e.Stay? && e.v != v {
      AnswerIs(w, sid, v.s, e.v.s, e.v.h);
    }
  }

  /** Storing a reply, the history and the write interest after the buffer was extended. */
  lemma AnswerIs(w: World, sid: Sid, s: Session, s': Session, h: Hist)
    requires Live(w, sid) && Kept(w.heap[sid], s) && Kept(w.heap[sid], s')
    ensures SetInterest(Put(Remember(Put(w, sid, s), sid, h), sid, s'), s.clientFd.value, WRITE)
            == Commit(w, sid, ViewOf(w, sid).(s := s', client := WRITE, h := h))
  {
    var a := Put(Remember(Put(w, sid, s), sid, h), sid, s');
    assert a.heap == w.heap[sid := s'];
    StoreIs(w, sid, s', h, w.metrics);
    var v := ViewOf(w, sid).(s := s', h := h);
    CommitView(w, sid, v);
    SetInterestIs(a, sid, WRITE);
    CommitTwice(w, sid, v, v.(client := WRITE));
  }

  lemma ReadAuthIs(w: World, fd: Fd, sid: Sid, got: seq<byte>, users: UserMap)
    requires Live(w, sid) && w.heap[sid].clientFd == Some(fd)
    ensures var v := ViewOf(w, sid); var w1 := Put(w, sid, Longer(v, got).s);
            ReadAuth(w1, fd, sid, users) == Apply(w, sid, AuthRead(Longer(v, got), users))
  {
    var v := Longer(ViewOf(w, sid), got);
    PutIs(w, sid, v.s);
    var e := AuthRead(v, users);
    if DecideAuth(v.s.readBuf, users) != AuthWait {
      AnswerIs(w, sid, v.s, e.v.s, e.v.h);
    }
  }

  lemma RejectIs(w: World, fd: Fd, sid: Sid, got: seq<byte>, code: byte)
    requires Live(w, sid) && w.heap[sid].clientFd == Some(fd)
    ensures var v := ViewOf(w, sid); var w1 := Put(w, sid, Longer(v, got).s);
            SetInterest(Discarding(Refuse(w1, sid, code, false), sid), fd, WRITE)
            == Commit(w, sid, Refused(Longer(v, got), code))
  {
    var v := ViewOf(w, sid);
    var v' := Refused(Longer(v, got), code);
    var w1 := Put(w, sid, Longer(v, got).s);
    var a := Discarding(Refuse(w1, sid, code, false), sid);
    assert a.heap == w.heap[sid := v'.s];
    StoreIs(w, sid, v'.s, v'.h, v'.m);
    var v1 := v'.(client := v.client);
    assert a == Commit(w, sid, v1);
    CommitView(w, sid, v1);
    SetInterestIs(a, sid, WRITE);
    CommitTwice(w, sid, v1, v');
  }
}
