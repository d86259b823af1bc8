/** The part of the world a session's own handlers work on, and what carries over to the whole. */
module Local {
  import opened Basics
  import opened Proxy
  import opened Invariant
  import opened Frames
  import opened Teardown

  /** One session, its interests, its history and the meters. */
  datatype View = View(s: Session, client: Interest, target: Option<Interest>, h: Hist, m: Metrics)

  ghost predicate Live(w: World, sid: Sid) {
    sid in w.heap && Anchored(w, sid)
  }

  ghost function ViewOf(w: World, sid: Sid): View
    requires Live(w, sid)
  {
    View(w.heap[sid], ClientInterest(w, sid), TargetInterest(w, sid), w.hist[sid], w.metrics)
  }

  ghost function WithInterest(table: map<Fd, Item>, fd: Fd, interest: Interest): map<Fd, Item>
    requires fd in table
  {
    table[fd := table[fd].(interest := interest)]
  }

  /** Replace what session `sid` sees. */
  ghost function Commit(w: World, sid: Sid, v: View): World
    requires Live(w, sid)
  {
    var s := w.heap[sid];
    var table := WithInterest(w.table, s.clientFd.value, v.client);
    w.(heap := w.heap[sid := v.s],
       table := if s.targetFd.Some? && v.target.Some? then WithInterest(table, s.targetFd.value, v.target.value) else table,
       hist := w.hist[sid := v.h], metrics := v.m)
  }

  /** Descriptors, job and list stay, as does what the session asked for. */
  ghost predicate SameTies(v: View, v': View) {
    && Kept(v.s, v'.s) && (v'.target.Some? <==> v'.s.targetFd.Some?)
    && v'.m.concurrent == v.m.concurrent && v'.m.historical == v.m.historical
  }

  ghost predicate MetersMatch(v: View, v': View) {
    && v'.m.successful == v.m.successful - Amount(v.h, Successes) + Amount(v'.h, Successes)
    && v'.m.failed == v.m.failed - Amount(v.h, Failures) + Amount(v'.h, Failures)
    && v'.m.upstream == v.m.upstream - |v.h.c2tOut| + |v'.h.c2tOut|
    && v'.m.downstream == v.m.downstream - |v.h.t2cOut| + |v'.h.t2cOut|
  }

  /** The session after a handler's work on it. */
  ghost predicate Moved(v: View, v': View) {
    SameTies(v, v') && MetersMatch(v, v') && HistOk(v'.h)
    && v'.h.request == v.h.request && v'.h.lookup == v.h.lookup && v'.h.resolved == v.h.resolved
    && v'.h.candidates == v.h.candidates && (Unresolved(v.h) ==> v'.h.replies == v.h.replies)
  }

  ghost predicate Settled(v: View) {
    StageOk(v.s, v.client, v.target) && Story(v.s, v.h)
  }

  /** How a handler leaves its session: settled, closed by client_session_close_connection, or unregistered. */
  datatype Exit = Stay(v: View) | End(v: View) | Drop(v: View)

  ghost function Apply(w: World, sid: Sid, exit: Exit): World
    requires Live(w, sid)
  {
    var w' := Commit(w, sid, exit.v);
    match exit
    case Stay(_) => w'
    case End(_) => CloseConnection(w', sid)
    case Drop(_) => Unregister(w', w.heap[sid].clientFd.value)
  }

  lemma MovedTies(v: View, v': View)
    requires Moved(v, v')
    ensures SameTies(v, v')
  {
  }

  lemma CommitView(w: World, sid: Sid, v: View)
    requires Live(w, sid) && Kept(w.heap[sid], v.s) && (v.target.Some? <==> v.s.targetFd.Some?)
    ensures Live(Commit(w, sid, v), sid) && ViewOf(Commit(w, sid, v), sid) == v
  {
  }

  lemma CommitTwice(w: World, sid: Sid, v: View, v': View)
    requires Live(w, sid) && Kept(w.heap[sid], v.s) && (v.target.Some? <==> v.s.targetFd.Some?)
    requires v'.target.Some? <==> v.s.targetFd.Some?
    ensures Live(Commit(w, sid, v), sid) && Commit(Commit(w, sid, v), sid, v') == Commit(w, sid, v')
  {
    CommitView(w, sid, v);
    var a := Commit(Commit(w, sid, v), sid, v');
    var b := Commit(w, sid, v');
    assert a.heap == b.heap && a.hist == b.hist;
    assert a.table == b.table;
  }

  lemma CommitNothing(w: World, sid: Sid)
    requires Live(w, sid)
    ensures Commit(w, sid, ViewOf(w, sid)) == w
  {
    var c := Commit(w, sid, ViewOf(w, sid));
    assert c.table == w.table && c.heap == w.heap && c.hist == w.hist;
  }

  lemma CommitTouches(w: World, sid: Sid, v: View)
    requires Live(w, sid) && SameTies(ViewOf(w, sid), v)
    ensures Touch(w, Commit(w, sid, v), sid)
  {
  }

  lemma CommitMeters(w: World, sid: Sid, v: View)
    requires Live(w, sid) && MetersMatch(ViewOf(w, sid), v)
    ensures MetersFollow(w, Commit(w, sid, v), sid)
  {
    forall t: Tally
      ensures Meter(v.m, t) == Meter(w.metrics, t) - Amount(w.hist[sid], t) + Amount(v.h, t)
    {
      match t { case Successes => case Failures => case Upstream => case Downstream => }
    }
  }

  /** A session's own work keeps the invariant of all the rest, also when the session asks for something new. */
  lemma CommitAsks(w: World, sid: Sid, v: View)
    requires InvExcept(w, sid) && Live(w, sid) && SameTies(ViewOf(w, sid), v) && MetersMatch(ViewOf(w, sid), v)
    requires HistOk(v.h) && OwnAnswer(Commit(w, sid, v), sid)
    ensures InvExcept(Commit(w, sid, v), sid)
  {
    CommitTouches(w, sid, v);
    CommitMeters(w, sid, v);
    TouchKeeps(w, Commit(w, sid, v), sid);
  }

  lemma MovedOwn(w: World, sid: Sid, v: View)
    requires Live(w, sid) && OwnAnswer(w, sid) && Moved(ViewOf(w, sid), v)
    ensures OwnAnswer(Commit(w, sid, v), sid)
  {
    hide HistOk, MetersMatch, Filter, ReplyForGaiError;
  }

  lemma CommitKeeps(w: World, sid: Sid, v: View)
    requires InvExcept(w, sid) && Live(w, sid) && Moved(ViewOf(w, sid), v)
    ensures InvExcept(Commit(w, sid, v), sid)
  {
    hide Linkage, Phase, Accounts, HistOk, SessionOk, OwnRequests, MetersMatch;
    MovedOwn(w, sid, v);
    CommitAsks(w, sid, v);
  }

  /** However a handler leaves its session, the invariant holds afterwards. */
  lemma ApplyKeeps(w: World, sid: Sid, exit: Exit)
    requires InvExcept(w, sid) && Live(w, sid) && Moved(ViewOf(w, sid), exit.v)
    requires exit.Stay? ==> Settled(exit.v)
    ensures Inv(Apply(w, sid, exit))
  {
    CommitKeeps(w, sid, exit.v);
    CommitView(w, sid, exit.v);
    match exit {
      case Stay(v) => StayKeeps(w, sid, v);
      case End(v) => CloseConnectionEnds(Commit(w, sid, v), sid);
      case Drop(v) => UnregisterClientEnds(Commit(w, sid, v), sid);
    }
  }

  lemma StayKeeps(w: World, sid: Sid, v: View)
    requires Live(w, sid) && Live(Commit(w, sid, v), sid)
    requires InvExcept(Commit(w, sid, v), sid) && ViewOf(Commit(w, sid, v), sid) == v && Settled(v)
    ensures Inv(Commit(w, sid, v))
  {
    assert SessionOk(Commit(w, sid, v), sid);
  }

  /** The invariant gives a live session its facts. */
  lemma Facts(w: World, sid: Sid)
    requires Inv(w) && sid in w.heap
    ensures Live(w, sid) && Settled(ViewOf(w, sid)) && HistOk(w.hist[sid]) && InvExcept(w, sid)
  {
    assert SessionOk(w, sid);
  }
}
