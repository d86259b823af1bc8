/** Runs, from the start, in which a client is told "succeeded" although nothing was connected: the lookup of its name
    succeeds, with any list without an address the proxy can use, or with none at all. */
module NoUsableAddress {
  import opened Basics
  import opened Socks5
  import opened Proxy
  import opened Codes
  import opened Theorems

  const QUIET := Io(RecvBlocked, [], Reported(0), [], true, false, map[])

  const GREETING: seq<byte> := [5, 1, 0]
  const REQUEST: seq<byte> := [5, 1, 0, 3, 1, 97, 0, 80]

  function Reads(bytes: seq<byte>): Event {
    Ready(5, true, false, QUIET.(recv := Received(bytes)), QUIET)
  }

  function Events(addresses: seq<Address>): seq<Event> {
    [Accept(5), Reads(GREETING), Ready(5, false, true, QUIET, QUIET.(sends := [Sent(2)])), Reads(REQUEST),
     ThreadRuns(0, Answer(0, addresses)), ThreadRuns(0, Answer(0, [])), ThreadRuns(0, Answer(0, [])), Drain(QUIET)]
  }

  // ---------------------------------------------------------------- the states on the way

  ghost function Greeted(): Session {
    Fresh(5).(writeBuf := GreetingResponse(METHOD_NO_AUTH), stage := Request)
  }

  ghost function Waiting(): Session {
    Fresh(5).(port := 80, destination := Named([97]), job := Some(0), stage := Resolving)
  }

  ghost function Told(): Hist {
    BLANK.(greeting := Some(Decision(GREETING, map[])))
  }

  ghost function Asked(): Hist {
    Told().(request := Some(ConnectRequest(ATYP_DOMAIN, [97], 80)), lookup := Some(0))
  }

  ghost function W(interest: Interest, s: Session, h: Hist): World {
    World(map[5 := Item(ClientItem, interest, 0)], {5}, map[0 := s], map[], map[], map[], [],
          Metrics(1, 1, 0, 0, 0, 0), 1, [h], [], false, false)
  }

  ghost function Looking(job: Job, thread: Option<Thread>, lists: map<Jid, seq<Address>>, queue: seq<Fd>, answer: Option<Answer>): World {
    W(NOOP, Waiting(), Asked()).(jobs := map[0 := job], lists := lists, queue := queue,
                                 threads := if thread.Some? then map[0 := thread.value] else map[],
                                 origins := [Origin(0, [97], 80, answer)])
  }

  const JOB := Job(5, Some(0), false, EAI_AGAIN, false)

  ghost function Done(addresses: seq<Address>): Job {
    JOB.(result := addresses != [], status := 0, done := true)
  }

  /** After the lookup, with the thread where `thread` says. */
  ghost function Found(addresses: seq<Address>, job: Job, thread: Option<Thread>, queue: seq<Fd>): World {
    Looking(job, thread, if addresses != [] then map[0 := addresses] else map[], queue, Some(Answer(0, addresses)))
  }

  // ---------------------------------------------------------------- step by step

  lemma Accepted()
    ensures Step(START, Accept(5)) == W(READ, Fresh(5), BLANK)
  {
    assert FreshFd({}, 5) == 5;
    var r := Step(START, Accept(5));
    assert r.table == map[5 := Item(ClientItem, READ, 0)] && r.open == {5} && r.heap == map[0 := Fresh(5)];
  }

  lemma GreetingDecided()
    ensures DecideGreeting(GREETING, map[]) == GreetingChoose(METHOD_NO_AUTH)
  {
    assert GREETING[2..3] == [0];
  }

  lemma GreetingRead()
    ensures Step(W(READ, Fresh(5), BLANK), Reads(GREETING)) == W(WRITE, Greeted(), Told())
  {
    hide DecideGreeting, Unregister, CloseConnection;
    GreetingDecided();
    var r := Step(W(READ, Fresh(5), BLANK), Reads(GREETING));
    assert [] + GREETING == GREETING;
    assert r.heap == map[0 := Greeted()];
    assert r.table == map[5 := Item(ClientItem, WRITE, 0)];
    assert r.hist == [Told()];
  }

  lemma ReplySent()
    ensures Step(W(WRITE, Greeted(), Told()), Ready(5, false, true, QUIET, QUIET.(sends := [Sent(2)])))
            == W(READ, Fresh(5).(stage := Request), Told())
  {
    var s := Greeted();
    assert Flush(s.writeBuf, 0, [Sent(2)]) == FlushResult(2, Drained);
    hide Flush;
    var r := Step(W(WRITE, Greeted(), Told()), Ready(5, false, true, QUIET, QUIET.(sends := [Sent(2)])));
    assert r.heap == map[0 := Fresh(5).(stage := Request)];
    assert r.table == map[5 := Item(ClientItem, READ, 0)];
  }

  lemma RequestDecided()
    ensures DecideRequest(REQUEST) == RequestConnect(ConnectRequest(ATYP_DOMAIN, [97], 80)) && CString([97]) == [97]
  {
    assert REQUEST[5..6] == [97];
    assert CString([97][1..]) == [];
  }

  /** What target_connection_begin does to the session and to the jobs. */
  lemma LookupBegun(s: Session)
    requires s == Fresh(5).(stage := Request, readBuf := REQUEST)
    ensures Begin(W(READ, s, Told()), 5, 0, ConnectRequest(ATYP_DOMAIN, [97], 80), QUIET.(recv := Received(REQUEST)))
            == Looking(JOB, Some(Lookup), map[], [], None).(heap := map[0 := Waiting().(readBuf := REQUEST)])
  {
    hide CString, Refuse, StartConnection;
    RequestDecided();
    var r := Begin(W(READ, s, Told()), 5, 0, ConnectRequest(ATYP_DOMAIN, [97], 80), QUIET.(recv := Received(REQUEST)));
    assert r.heap == map[0 := Waiting().(readBuf := REQUEST)];
    assert r.table == map[5 := Item(ClientItem, NOOP, 0)] && r.hist == [Asked()];
    assert r.jobs == map[0 := JOB] && r.threads == map[0 := Lookup];
  }

  lemma RequestArrived(s: Session)
    requires s == Fresh(5).(stage := Request, readBuf := REQUEST)
    ensures Step(W(READ, Fresh(5).(stage := Request), Told()), Reads(REQUEST))
            == ReadRequest(W(READ, s, Told()), 5, 0, QUIET.(recv := Received(REQUEST)))
  {
    hide ReadRequest, Told;
    assert [] + REQUEST == REQUEST;
    var w := W(READ, Fresh(5).(stage := Request), Told());
    assert Put(w, 0, s) == W(READ, s, Told()) by { assert w.heap[0 := s] == map[0 := s]; }
  }

  lemma RequestRead()
    ensures Step(W(READ, Fresh(5).(stage := Request), Told()), Reads(REQUEST)) == Looking(JOB, Some(Lookup), map[], [], None)
  {
    hide DecideRequest, CString, Refuse, Begin, Step, Told, Asked;
    var s := Fresh(5).(stage := Request, readBuf := REQUEST);
    RequestArrived(s);
    RequestDecided();
    LookupBegun(s);
    var b := Begin(W(READ, s, Told()), 5, 0, ConnectRequest(ATYP_DOMAIN, [97], 80), QUIET.(recv := Received(REQUEST)));
    assert b.heap[0 := Waiting()] == map[0 := Waiting()];
  }

  lemma LookupReturned(addresses: seq<Address>)
    ensures Step(Looking(JOB, Some(Lookup), map[], [], None), ThreadRuns(0, Answer(0, addresses)))
            == Found(addresses, JOB, Some(Publish(0, addresses != [])), [])
  {
    hide Waiting, Asked;
    var r := Step(Looking(JOB, Some(Lookup), map[], [], None), ThreadRuns(0, Answer(0, addresses)));
    assert r.threads == map[0 := Publish(0, addresses != [])] && r.lists == (if addresses != [] then map[0 := addresses] else map[]);
  }

  lemma AnswerPublished(addresses: seq<Address>)
    ensures Step(Found(addresses, JOB, Some(Publish(0, addresses != [])), []), ThreadRuns(0, Answer(0, [])))
            == Found(addresses, Done(addresses), Some(Notify(5)), [])
  {
    hide Waiting, Asked;
    var r := Step(Found(addresses, JOB, Some(Publish(0, addresses != [])), []), ThreadRuns(0, Answer(0, [])));
    assert r.jobs == map[0 := Done(addresses)] && r.threads == map[0 := Notify(5)];
  }

  lemma Notified(addresses: seq<Address>)
    ensures Step(Found(addresses, Done(addresses), Some(Notify(5)), []), ThreadRuns(0, Answer(0, [])))
            == Found(addresses, Done(addresses), None, [5])
  {
    hide Waiting, Asked;
    var r := Step(Found(addresses, Done(addresses), Some(Notify(5)), []), ThreadRuns(0, Answer(0, [])));
    assert r.threads == map[] && [5] + [] == [5];
  }

  lemma Answered(addresses: seq<Address>)
    requires NothingUsable(addresses)
    ensures var r := Step(Found(addresses, Done(addresses), None, [5]), Drain(QUIET));
            && 0 in r.heap && r.heap[0].stage == Closing && r.heap[0].writeBuf == RequestResponse(REPLY_SUCCESS)
            && |r.hist| > 0 && r.hist[0].replies == [REPLY_SUCCESS] && !r.hist[0].succeeded && r.hist[0].tried == []
  {
    hide TakeAnswer;
    var w := Found(addresses, Done(addresses), None, [5]);
    NothingUsableSaysSuccess(w.(queue := w.queue[1..]), 5, 0, 0, QUIET);
  }

  /** The whole run, for every such list. */
  lemma ClientIsToldSuccess(addresses: seq<Address>)
    requires NothingUsable(addresses)
    ensures var w := Run(START, Events(addresses));
            && 0 in w.heap && w.heap[0].stage == Closing && w.heap[0].writeBuf == RequestResponse(REPLY_SUCCESS)
            && |w.hist| > 0 && w.hist[0].replies == [REPLY_SUCCESS] && !w.hist[0].succeeded && w.hist[0].tried == []
  {
    hide Step, W, Looking, Found, Greeted, Told, Fresh, RequestResponse, NothingUsable;
    Accepted();
    GreetingRead();
    ReplySent();
    RequestRead();
    LookupReturned(addresses);
    AnswerPublished(addresses);
    Notified(addresses);
    Answered(addresses);
    var e := Events(addresses);
    assert e[..8] == e && e[..8][..7] == e[..7] && e[..7][..6] == e[..6] && e[..6][..5] == e[..5] && e[..5][..4] == e[..4];
    assert e[..4][..3] == e[..3] && e[..3][..2] == e[..2] && e[..2][..1] == e[..1] && e[..1][..0] == [];
    assert Run(START, e[..1]) == W(READ, Fresh(5), BLANK);
    assert Run(START, e[..2]) == W(WRITE, Greeted(), Told());
    assert Run(START, e[..3]) == W(READ, Fresh(5).(stage := Request), Told());
    assert Run(START, e[..4]) == Looking(JOB, Some(Lookup), map[], [], None);
    assert Run(START, e[..5]) == Found(addresses, JOB, Some(Publish(0, addresses != [])), []);
    assert Run(START, e[..6]) == Found(addresses, Done(addresses), Some(Notify(5)), []);
    assert Run(START, e[..7]) == Found(addresses, Done(addresses), None, [5]);
  }
}
